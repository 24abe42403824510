/**
  The game engine of src/utils/gameLogic.ts: combining two elements (recipe
  lookup, discovery, scoring, level, streaks, combination counts, element
  powers and the combo multiplier, then achievements and their rewards), and
  the queries the interface asks of a game state.

  `Date.now()` is the parameter `now` (milliseconds); `Math.random()` draws
  are the parameters named `...Pick`.
 */
module GameLogic {
  import opened Wrappers
  import opened Seqs
  import opened JsStrings
  import opened ElementData
  import opened GameTypes
  import opened Achievements

  /** The `GameProgress` record: the game state and the achievement state it travels with. */
  datatype GameProgress = GameProgress(gameState: GameState, achievementState: AchievementState)

  // ----- Recipe and element lookup -----

  /** A recipe combines `x` and `y` when its two ingredients are these, in either order. */
  predicate Matches(c: Combination, x: Id, y: Id)
  {
    (c.first == x && c.second == y) || (c.first == y && c.second == x)
  }

  /** The index of the first recipe of `rs` that combines `x` and `y` (`Array.prototype.find`). */
  function FirstMatchIndex(rs: seq<Combination>, x: Id, y: Id): (r: Option<nat>)
    ensures r.Some? ==>
              && r.value < |rs| && Matches(rs[r.value], x, y)
              && forall j :: 0 <= j < r.value ==> !Matches(rs[j], x, y)
    ensures r.None? ==> forall j :: 0 <= j < |rs| ==> !Matches(rs[j], x, y)
  {
    if |rs| == 0 then None
    else if Matches(rs[0], x, y) then Some(0)
    else match FirstMatchIndex(rs[1..], x, y)
      case None => None
      case Some(k) => Some(k + 1)
  }

  /** The first match is at `k` when `rs[k]` matches and nothing before it does. */
  lemma FirstMatchAt(rs: seq<Combination>, x: Id, y: Id, k: nat)
    requires k < |rs| && Matches(rs[k], x, y)
    requires forall j :: 0 <= j < k ==> !Matches(rs[j], x, y)
    ensures FirstMatchIndex(rs, x, y) == Some(k)
  {
  }

  /**
    The recipe `combineElements` uses for the pair, in the recipe table `rs`
    (`getAllCombinations()` in the game): it sorts the two ids, then takes the
    first recipe that matches the sorted pair in either direction.
   */
  function FindCombination(rs: seq<Combination>, id1: Id, id2: Id): (r: Option<Combination>)
    ensures r.Some? ==> Matches(r.value, id1, id2) && r.value in rs
    ensures r.None? ==> forall c :: c in rs ==> !Matches(c, id1, id2)
  {
    var sorted := SortPair(id1, id2);
    match FirstMatchIndex(rs, sorted.0, sorted.1)
    case None => None
    case Some(k) => Some(rs[k])
  }

  /** The recipe found is the first one in the table that combines the two ids, in either order. */
  lemma FindCombinationIsFirst(rs: seq<Combination>, id1: Id, id2: Id, k: nat)
    requires k < |rs| && Matches(rs[k], id1, id2)
    requires forall j :: 0 <= j < k ==> !Matches(rs[j], id1, id2)
    ensures FindCombination(rs, id1, id2) == Some(rs[k])
  {
    var sorted := SortPair(id1, id2);
    FirstMatchAt(rs, sorted.0, sorted.1, k);
  }

  /** The order in which the two elements are given never changes the recipe found. */
  lemma FindCombinationSymmetric(rs: seq<Combination>, id1: Id, id2: Id)
    ensures FindCombination(rs, id1, id2) == FindCombination(rs, id2, id1)
  {
    SortPairSymmetric(id1, id2);
  }

  /** The index of the first element with this id (`elements.find(e => e.id === id)`). */
  function FindElement(es: seq<Element>, id: Id): (r: Option<nat>)
    ensures r.Some? ==> r.value < |es| && es[r.value].id == id && forall j :: 0 <= j < r.value ==> es[j].id != id
    ensures r.None? ==> forall j :: 0 <= j < |es| ==> es[j].id != id
  {
    if |es| == 0 then None
    else if es[0].id == id then Some(0)
    else match FindElement(es[1..], id)
      case None => None
      case Some(k) => Some(k + 1)
  }

  /** `getElementByID`. */
  function GetElementByID(gs: GameState, id: Id): (r: Option<Element>)
    ensures r.Some? ==> r.value in gs.elements && r.value.id == id
    ensures r.None? ==> forall e :: e in gs.elements ==> e.id != id
  {
    match FindElement(gs.elements, id)
    case None => None
    case Some(k) => Some(gs.elements[k])
  }

  /** `getDiscoveredElements`. */
  function GetDiscoveredElements(gs: GameState): (r: seq<Element>)
    ensures forall e :: e in r <==> e in gs.elements && e.discovered
    ensures IsSubsequence(r, gs.elements)
    ensures forall e {:trigger multiset(r)[e]} :: multiset(r)[e] == if e.discovered then multiset(gs.elements)[e] else 0
  {
    Discovered(gs.elements)
  }

  // ----- Scoring, level and power -----

  /** How hard a difficulty is, 0 for easy to 3 for very hard; a missing difficulty counts as 0. */
  function Rank(d: Option<Difficulty>): nat
  {
    match d
    case Some(Easy) => 0
    case Some(Medium) => 1
    case Some(Hard) => 2
    case Some(VeryHard) => 3
    case None => 0
  }

  /** The points a successful combination earns (the `switch` on the recipe's difficulty). */
  function PointsFor(d: Option<Difficulty>, isNew: bool): (p: nat)
    ensures p > 0
    ensures isNew ==> p >= 10
    ensures !isNew ==> p <= 10
  {
    match d
    case Some(Easy) => if isNew then 10 else 1
    case Some(Medium) => if isNew then 25 else 3
    case Some(Hard) => if isNew then 50 else 5
    case Some(VeryHard) => if isNew then 100 else 10
    case None => if isNew then 15 else 2
  }

  /**
    Every success scores; a new discovery scores more than a repeat; among the
    listed difficulties a harder recipe scores more.
   */
  lemma PointsOrdering(d1: Option<Difficulty>, d2: Option<Difficulty>, isNew: bool)
    requires d1.Some? && d2.Some? && Rank(d1) < Rank(d2)
    ensures PointsFor(d1, isNew) < PointsFor(d2, isNew)
    ensures PointsFor(d1, false) > 0 && PointsFor(d1, true) > PointsFor(d1, false)
  {
  }

  /** The base power of a difficulty (`{...}[difficulty] || 1`): it doubles with each step of difficulty. */
  function BasePower(d: Option<Difficulty>): (b: nat)
    ensures b >= 1
  {
    match d
    case Some(Easy) => 1
    case Some(Medium) => 2
    case Some(Hard) => 4
    case Some(VeryHard) => 8
    case None => 1
  }

  function Pow2(n: nat): nat { if n == 0 then 1 else 2 * Pow2(n - 1) }

  lemma BasePowerDoubles(d: Option<Difficulty>)
    ensures BasePower(d) == Pow2(Rank(d))
  {
  }

  /**
    `calculatePowerGain`: `Math.round(basePower * multiplier)` with the
    multiplier in tenths, rounding halves up.
   */
  function CalculatePowerGain(c: Combination, multiplierTenths: int): (r: int)
    ensures 10 * r - 5 <= BasePower(c.difficulty) * multiplierTenths < 10 * r + 5
  {
    var n := BasePower(c.difficulty) * multiplierTenths + 5;
    assert n == 10 * (n / 10) + n % 10;
    n / 10
  }

  /** Within the multiplier's range 1.0 to 3.0 a combination gains between one and three times its base power. */
  lemma PowerGainRange(c: Combination, multiplierTenths: int)
    requires 10 <= multiplierTenths <= 30
    ensures BasePower(c.difficulty) <= CalculatePowerGain(c, multiplierTenths) <= 3 * BasePower(c.difficulty)
  {
    var b := BasePower(c.difficulty);
    assert 10 * b <= b * multiplierTenths <= 30 * b;
  }

  /** The multiplier after a success: one tenth more, capped at 3.0. */
  function NextMultiplier(multiplierTenths: int): (m: int)
    ensures m <= 30
    ensures multiplierTenths < 30 ==> m == multiplierTenths + 1
    ensures multiplierTenths >= 30 ==> m == 30
  {
    Min(multiplierTenths + 1, 30)
  }

  // ----- combineElements, as a specification -----

  /** What the lookups of `combineElements` find: no recipe, a recipe whose result is not in the state, or both. */
  datatype Lookup = NoRecipe | MissingResult(recipe: Combination) | Found(recipe: Combination, resultIndex: nat)

  function LookUp(rs: seq<Combination>, gs: GameState, id1: Id, id2: Id): (r: Lookup)
    ensures r.Found? ==>
              && r.resultIndex < |gs.elements| && gs.elements[r.resultIndex].id == r.recipe.result
              && Some(r.recipe) == FindCombination(rs, id1, id2)
    ensures r.NoRecipe? <==> FindCombination(rs, id1, id2).None?
    ensures r.MissingResult? ==>
              && Some(r.recipe) == FindCombination(rs, id1, id2)
              && forall e :: e in gs.elements ==> e.id != r.recipe.result
  {
    match FindCombination(rs, id1, id2)
    case None => NoRecipe
    case Some(c) =>
      match FindElement(gs.elements, c.result)
      case None => MissingResult(c)
      case Some(k) => Found(c, k)
  }

  /** The state after a failed attempt: the slots cleared, the streak reset, the failure recorded. */
  function Failed(gs: GameState): GameState
  {
    gs.(combiningElements := (None, None), successfulCombosInARow := 0, lastCombinationSuccess := Some(false))
  }

  /** The discovery record of a success; both its id and its timestamp come from the clock. */
  function DiscoveryRecord(id1: Id, id2: Id, result: Id, now: nat): (d: Discovery)
    ensures d.elements == (id1, id2) || d.elements == (id2, id1)
    ensures !LexLess(d.elements.1, d.elements.0)
  {
    Discovery(NatToString(now), result, now, SortPair(id1, id2))
  }

  /**
    `newGameState` of a success, before rewards: the result marked
    discovered, the record prepended when it is new, points, level, streak,
    combo chain, powers and multiplier. The count table object is carried
    over; its new contents are `AddEach(counts, [id1, id2], 1)`.
   */
  function Succeeded(gs: GameState, c: Combination, resultIndex: nat, id1: Id, id2: Id, now: nat): GameState
    requires resultIndex < |gs.elements|
  {
    var isNew := !gs.elements[resultIndex].discovered;
    var result := gs.elements[resultIndex].id;
    var discoveryCount := DiscoveredCount(gs.elements) + (if isNew then 1 else 0);
    var chain := gs.currentComboChain + 1;
    var gain := CalculatePowerGain(c, gs.comboMultiplierTenths);
    GameState(
      MarkDiscovered(gs.elements, result),
      if isNew then [DiscoveryRecord(id1, id2, result, now)] + gs.discoveries else gs.discoveries,
      (None, None),
      discoveryCount / 5 + 1,
      gs.score + PointsFor(c.difficulty, isNew),
      gs.successfulCombosInARow + 1,
      Some(true),
      gs.viewedElementDetails,
      gs.combinationCounts,
      gs.favorites,
      chain,
      Max(chain, gs.maxComboChain),
      AddEach(gs.elementPowers, [id1, id2], gain),
      NextMultiplier(gs.comboMultiplierTenths),
      gs.totalPowerGained + gain)
  }

  /** The reward loop of `combineElements`: an element reward marks that element discovered; the others only notify. */
  function ApplyRewards(es: seq<Element>, rewards: seq<Reward>): (r: seq<Element>)
    ensures |r| == |es|
    ensures forall i :: 0 <= i < |es| ==> r[i].id == es[i].id && (es[i].discovered ==> r[i].discovered)
    decreases |rewards|
  {
    if |rewards| == 0 then es
    else
      var before := ApplyRewards(es, rewards[..|rewards| - 1]);
      var last := rewards[|rewards| - 1];
      if last.kind == ElementReward then MarkDiscovered(before, last.value) else before
  }

  /** Rewards that are not element rewards leave the elements as they are. */
  lemma {:induction false} ApplyRewardsNoElement(es: seq<Element>, rewards: seq<Reward>)
    requires forall i :: 0 <= i < |rewards| ==> rewards[i].kind != ElementReward
    ensures ApplyRewards(es, rewards) == es
    decreases |rewards|
  {
    if |rewards| > 0 {
      ApplyRewardsNoElement(es, rewards[..|rewards| - 1]);
    }
  }

  /** The game state `combineElements` returns, after achievements and their rewards. */
  function CombinedState(rs: seq<Combination>, gs: GameState, achs: seq<Achievement>, id1: Id, id2: Id, now: nat): GameState
  {
    match LookUp(rs, gs, id1, id2)
    case Found(c, k) =>
      var s := Succeeded(gs, c, k, id1, id2, now);
      s.(elements := ApplyRewards(s.elements, RewardsOf(NewlyUnlocked(s, achs))))
    case _ => Failed(gs)
  }

  /** The state the achievements are checked against: the success state before rewards. */
  function CheckedAgainst(rs: seq<Combination>, gs: GameState, id1: Id, id2: Id, now: nat): GameState
    requires LookUp(rs, gs, id1, id2).Found?
  {
    var f := LookUp(rs, gs, id1, id2);
    Succeeded(gs, f.recipe, f.resultIndex, id1, id2, now)
  }

  // ----- combineElements, as the source runs it -----

  /** `elementIds.forEach(id => { combinationCounts[id] = (combinationCounts[id] || 0) + 1 })`, in place. */
  method IncrementCounts(table: CountTable, ids: seq<Id>)
    modifies table
    ensures table.counts == AddEach(old(table.counts), ids, 1)
  {
    for i := 0 to |ids|
      invariant table.counts == AddEach(old(table.counts), ids[..i], 1)
    {
      assert ids[..i + 1] == ids[..i] + [ids[i]];
      AddEachSnoc(old(table.counts), ids[..i], ids[i], 1);
      table.counts := table.counts[ids[i] := Get(table.counts, ids[i]) + 1];
    }
    assert ids[..|ids|] == ids;
  }

  /** `rewards.forEach(...)`: element rewards mark their element discovered. */
  method ApplyRewardsInOrder(es: seq<Element>, rewards: seq<Reward>) returns (r: seq<Element>)
    ensures r == ApplyRewards(es, rewards)
  {
    r := es;
    for i := 0 to |rewards|
      invariant r == ApplyRewards(es, rewards[..i])
    {
      assert rewards[..i + 1][..i] == rewards[..i];
      if rewards[i].kind == ElementReward {
        r := MarkDiscovered(r, rewards[i].value);
      }
    }
    assert rewards[..|rewards|] == rewards;
  }

  /** The new game state of a success, built as `combineElements` builds it. */
  method SuccessState(gs: GameState, c: Combination, k: nat, id1: Id, id2: Id, now: nat) returns (newState: GameState)
    requires k < |gs.elements|
    ensures newState == Succeeded(gs, c, k, id1, id2, now)
  {
    var resultElement := gs.elements[k];
    var isNew := !resultElement.discovered;
    var record := DiscoveryRecord(id1, id2, resultElement.id, now);
    var discoveryCount := DiscoveredCount(gs.elements) + (if isNew then 1 else 0);
    var chain := gs.currentComboChain + 1;
    var gain := CalculatePowerGain(c, gs.comboMultiplierTenths);
    var powers := AddPowers(gs.elementPowers, [id1, id2], gain);
    newState := GameState(
      MarkDiscovered(gs.elements, resultElement.id),
      if isNew then [record] + gs.discoveries else gs.discoveries,
      (None, None), discoveryCount / 5 + 1, gs.score + PointsFor(c.difficulty, isNew),
      gs.successfulCombosInARow + 1, Some(true), gs.viewedElementDetails, gs.combinationCounts,
      gs.favorites, chain, Max(chain, gs.maxComboChain),
      powers, NextMultiplier(gs.comboMultiplierTenths), gs.totalPowerGained + gain);
    ghost var spec := Succeeded(gs, c, k, id1, id2, now);
    assert newState.elements == spec.elements;
    assert newState.discoveries == spec.discoveries;
    assert newState.level == spec.level;
    assert newState.score == spec.score;
    assert newState.elementPowers == spec.elementPowers;
    assert newState.totalPowerGained == spec.totalPowerGained;
    assert newState.comboMultiplierTenths == spec.comboMultiplierTenths;
    assert newState.maxComboChain == spec.maxComboChain;
    assert newState.combinationCounts == spec.combinationCounts && newState.favorites == spec.favorites;
    assert newState.viewedElementDetails == spec.viewedElementDetails;
    assert newState.currentComboChain == spec.currentComboChain;
    assert newState.successfulCombosInARow == spec.successfulCombosInARow;
  }

  /** The success branch of `combineElements`, for the recipe `c` and the result at index `k`. */
  method CombineFound(gp: GameProgress, c: Combination, k: nat, id1: Id, id2: Id, now: nat)
    returns (newProgress: GameProgress, newDiscovery: Option<Discovery>)
    requires k < |gp.gameState.elements|
    modifies gp.gameState.combinationCounts, gp.achievementState
    ensures var s := Succeeded(gp.gameState, c, k, id1, id2, now);
      var newly := NewlyUnlocked(s, old(gp.achievementState.achievements));
      && newProgress.gameState == s.(elements := ApplyRewards(s.elements, RewardsOf(newly)))
      && gp.gameState.combinationCounts.counts == AddEach(old(gp.gameState.combinationCounts.counts), [id1, id2], 1)
      && fresh(newProgress.achievementState)
      && newProgress.achievementState.achievements == Checked(s, old(gp.achievementState.achievements))
      && newProgress.achievementState.lastUnlocked == LastUnlockedAfter(newly, old(gp.achievementState.lastUnlocked))
      && gp.achievementState.lastUnlocked == newProgress.achievementState.lastUnlocked
      && gp.achievementState.achievements == old(gp.achievementState.achievements)
      && newDiscovery == if gp.gameState.elements[k].discovered then None
                         else Some(DiscoveryRecord(id1, id2, gp.gameState.elements[k].id, now))
  {
    var gs := gp.gameState;
    IncrementCounts(gs.combinationCounts, [id1, id2]);
    var newState := SuccessState(gs, c, k, id1, id2, now);
    var isNew := !gs.elements[k].discovered;
    var updatedAchievementState, rewards := ProcessAchievements(newState, gp.achievementState);
    var elements := ApplyRewardsInOrder(newState.elements, rewards);
    newProgress := GameProgress(newState.(elements := elements), updatedAchievementState);
    newDiscovery := if isNew then Some(DiscoveryRecord(id1, id2, gs.elements[k].id, now)) else None;
  }

  /**
    `combineElements`, given the recipe table `rs` that the source reads from
    `getAllCombinations()`. The count table is incremented in place, and
    `processAchievements` writes the given achievement state's `lastUnlocked`
    in place; everything else is new.
   */
  method CombineElements(rs: seq<Combination>, gp: GameProgress, id1: Id, id2: Id, now: nat)
    returns (newProgress: GameProgress, newDiscovery: Option<Discovery>, success: bool)
    modifies gp.gameState.combinationCounts, gp.achievementState
    ensures success <==> LookUp(rs, gp.gameState, id1, id2).Found?
    ensures newProgress.gameState == CombinedState(rs, gp.gameState, old(gp.achievementState.achievements), id1, id2, now)
    ensures !success ==>
              && newProgress.achievementState == gp.achievementState && newDiscovery == None
              && unchanged(gp.gameState.combinationCounts, gp.achievementState)
    ensures success ==>
              var s := CheckedAgainst(rs, gp.gameState, id1, id2, now);
              var newly := NewlyUnlocked(s, old(gp.achievementState.achievements));
              var f := LookUp(rs, gp.gameState, id1, id2);
              && gp.gameState.combinationCounts.counts == AddEach(old(gp.gameState.combinationCounts.counts), [id1, id2], 1)
              && fresh(newProgress.achievementState)
              && newProgress.achievementState.achievements == Checked(s, old(gp.achievementState.achievements))
              && newProgress.achievementState.lastUnlocked == LastUnlockedAfter(newly, old(gp.achievementState.lastUnlocked))
              && gp.achievementState.lastUnlocked == newProgress.achievementState.lastUnlocked
              && gp.achievementState.achievements == old(gp.achievementState.achievements)
              && newDiscovery == if gp.gameState.elements[f.resultIndex].discovered then None
                                 else Some(DiscoveryRecord(id1, id2, f.recipe.result, now))
  {
    var lookup := LookUp(rs, gp.gameState, id1, id2);
    if !lookup.Found? {
      newProgress := GameProgress(Failed(gp.gameState), gp.achievementState);
      newDiscovery, success := None, false;
      return;
    }
    newProgress, newDiscovery := CombineFound(gp, lookup.recipe, lookup.resultIndex, id1, id2, now);
    success := true;
  }

  // ----- What a combination does -----

  /** A failed attempt clears the slots, resets the streak and records the failure; nothing else changes. */
  lemma CombineFailure(rs: seq<Combination>, gs: GameState, achs: seq<Achievement>, id1: Id, id2: Id, now: nat)
    requires !LookUp(rs, gs, id1, id2).Found?
    ensures var r := CombinedState(rs, gs, achs, id1, id2, now);
      && r.combiningElements == (None, None) && r.successfulCombosInARow == 0
      && r.lastCombinationSuccess == Some(false)
      && r.(combiningElements := gs.combiningElements, successfulCombosInARow := gs.successfulCombosInARow,
            lastCombinationSuccess := gs.lastCombinationSuccess) == gs
  {
  }

  /** A successful attempt discovers the result and forgets nothing already discovered. */
  lemma CombineDiscovers(rs: seq<Combination>, gs: GameState, achs: seq<Achievement>, id1: Id, id2: Id, now: nat)
    requires LookUp(rs, gs, id1, id2).Found?
    ensures var f := LookUp(rs, gs, id1, id2);
      var r := CombinedState(rs, gs, achs, id1, id2, now);
      && |r.elements| == |gs.elements|
      && (forall i :: 0 <= i < |gs.elements| ==>
            r.elements[i].id == gs.elements[i].id && (gs.elements[i].discovered ==> r.elements[i].discovered))
      && (forall i :: 0 <= i < |r.elements| && r.elements[i].id == f.recipe.result ==> r.elements[i].discovered)
  {
  }

  /**
    A successful attempt raises the score by the difficulty table's points, so
    strictly; it grows the streak and the
    combo chain by one, records the success and clears the slots.
   */
  lemma CombineScores(rs: seq<Combination>, gs: GameState, achs: seq<Achievement>, id1: Id, id2: Id, now: nat)
    requires LookUp(rs, gs, id1, id2).Found?
    ensures var f := LookUp(rs, gs, id1, id2);
      var r := CombinedState(rs, gs, achs, id1, id2, now);
      && r.score == gs.score + PointsFor(f.recipe.difficulty, !gs.elements[f.resultIndex].discovered)
      && r.score > gs.score
      && r.successfulCombosInARow == gs.successfulCombosInARow + 1 && r.lastCombinationSuccess == Some(true)
      && r.combiningElements == (None, None)
      && r.currentComboChain == gs.currentComboChain + 1
      && r.maxComboChain == Max(r.currentComboChain, gs.maxComboChain)
  {
    var f := LookUp(rs, gs, id1, id2);
    var isNew := !gs.elements[f.resultIndex].discovered;
    assert PointsFor(f.recipe.difficulty, isNew) > 0;
  }

  /** The discovery log gains one record, at its front, exactly when the result was not yet discovered. */
  lemma CombineLogsDiscovery(rs: seq<Combination>, gs: GameState, achs: seq<Achievement>, id1: Id, id2: Id, now: nat)
    requires LookUp(rs, gs, id1, id2).Found?
    ensures var f := LookUp(rs, gs, id1, id2);
      var r := CombinedState(rs, gs, achs, id1, id2, now);
      var isNew := !gs.elements[f.resultIndex].discovered;
      && |r.discoveries| == |gs.discoveries| + (if isNew then 1 else 0)
      && r.discoveries[|r.discoveries| - |gs.discoveries|..] == gs.discoveries
      && (isNew ==> r.discoveries[0].result == f.recipe.result && r.discoveries[0].timestamp == now)
  {
    var f := LookUp(rs, gs, id1, id2);
    var r := CombinedState(rs, gs, achs, id1, id2, now);
    if !gs.elements[f.resultIndex].discovered {
      assert r.discoveries[1..] == gs.discoveries;
    }
  }

  /**
    Each ingredient's power grows by the power gain, twice for a pair of the
    same element, and the total grows by the gain once.
   */
  lemma CombinePowers(rs: seq<Combination>, gs: GameState, achs: seq<Achievement>, id1: Id, id2: Id, now: nat)
    requires LookUp(rs, gs, id1, id2).Found?
    ensures var f := LookUp(rs, gs, id1, id2);
      var r := CombinedState(rs, gs, achs, id1, id2, now);
      var gain := CalculatePowerGain(f.recipe, gs.comboMultiplierTenths);
      && (forall k :: Get(r.elementPowers, k) ==
            Get(gs.elementPowers, k) + (if k == id1 then gain else 0) + (if k == id2 then gain else 0))
      && r.totalPowerGained == gs.totalPowerGained + gain
      && r.comboMultiplierTenths == NextMultiplier(gs.comboMultiplierTenths)
  {
    var f := LookUp(rs, gs, id1, id2);
    AddEachPair(gs.elementPowers, id1, id2, CalculatePowerGain(f.recipe, gs.comboMultiplierTenths));
  }

  /** The success state does not depend on the order of the two ingredients. */
  lemma SucceededSymmetric(gs: GameState, c: Combination, k: nat, a: Id, b: Id, now: nat)
    requires k < |gs.elements|
    ensures Succeeded(gs, c, k, a, b, now) == Succeeded(gs, c, k, b, a, now)
  {
    SortPairSymmetric(a, b);
    AddEachSwap(gs.elementPowers, a, b, CalculatePowerGain(c, gs.comboMultiplierTenths));
  }

  /** Combining `a` with `b` and combining `b` with `a` give the same state and the same counts. */
  lemma CombineOrderIrrelevant(rs: seq<Combination>, gs: GameState, achs: seq<Achievement>, a: Id, b: Id, now: nat)
    ensures CombinedState(rs, gs, achs, a, b, now) == CombinedState(rs, gs, achs, b, a, now)
    ensures forall counts: map<Id, int> :: AddEach(counts, [a, b], 1) == AddEach(counts, [b, a], 1)
  {
    FindCombinationSymmetric(rs, a, b);
    assert LookUp(rs, gs, a, b) == LookUp(rs, gs, b, a);
    if LookUp(rs, gs, a, b).Found? {
      var f := LookUp(rs, gs, a, b);
      SucceededSymmetric(gs, f.recipe, f.resultIndex, a, b, now);
    }
    forall counts: map<Id, int> ensures AddEach(counts, [a, b], 1) == AddEach(counts, [b, a], 1) {
      AddEachSwap(counts, a, b, 1);
    }
  }

  /** Element ids never change: a combination only marks elements discovered. */
  lemma CombineKeepsIds(rs: seq<Combination>, gs: GameState, achs: seq<Achievement>, id1: Id, id2: Id, now: nat)
    ensures Ids(CombinedState(rs, gs, achs, id1, id2, now).elements) == Ids(gs.elements)
  {
  }

  /**
    With distinct element ids, the level a success sets is one more than a
    fifth of the elements then discovered, as long as no reward discovers an
    element (no achievement of the catalogue carries an element reward).
   */
  lemma LevelTracksDiscoveries(rs: seq<Combination>, gs: GameState, achs: seq<Achievement>, id1: Id, id2: Id, now: nat)
    requires LookUp(rs, gs, id1, id2).Found? && DistinctIds(gs.elements)
    requires forall i :: 0 <= i < |achs| && achs[i].reward.Some? ==> achs[i].reward.value.kind != ElementReward
    ensures var r := CombinedState(rs, gs, achs, id1, id2, now);
      r.level == DiscoveredCount(r.elements) / 5 + 1
  {
    var f := LookUp(rs, gs, id1, id2);
    var s := CheckedAgainst(rs, gs, id1, id2, now);
    var es := gs.elements;
    var id := es[f.resultIndex].id;
    MarkDiscoveredCount(es, id);
    UndiscoveredWithIdDistinct(es, id);
    if !es[f.resultIndex].discovered {
      assert exists i :: 0 <= i < |es| && es[i].id == id && !es[i].discovered;
    } else {
      forall i | 0 <= i < |es| && es[i].id == id ensures es[i].discovered {
        assert es[i].id == es[f.resultIndex].id;
      }
    }
    var newly := NewlyUnlocked(s, achs);
    var rewards := RewardsOf(newly);
    forall i | 0 <= i < |rewards| ensures rewards[i].kind != ElementReward {
      RewardsOfMembers(newly, rewards[i]);
      var j :| 0 <= j < |newly| && newly[j].reward == Some(rewards[i]);
      NewlyUnlockedMembers(s, achs, newly[j]);
      var a := newly[j].(unlocked := false);
      var m :| 0 <= m < |achs| && achs[m] == a;
    }
    ApplyRewardsNoElement(s.elements, rewards);
  }

  // ----- The recipe catalogue -----

  /** Lava is the first recipe of the main table for fire and earth; the smoke recipe for the same pair comes later. */
  lemma FireTableFacts()
    ensures !Matches(Combinations()[0], "fire", "earth")
    ensures Combinations()[1] == C("earth", "fire", "lava", Easy)
    ensures Combinations()[4] == C("fire", "earth", "smoke", Easy)
  {
  }

  /** The computer recipe is the first recipe of the main table for metal and electricity. */
  lemma ComputerTableFacts()
    ensures Combinations()[25] == C("electricity", "metal", "computer", VeryHard)
    ensures forall j :: 0 <= j < 25 ==> !Matches(Combinations()[j], "metal", "electricity")
  {
  }

  /** No recipe of the main table combines air and water. */
  lemma AirWaterNotInMainTable()
    ensures forall j :: 0 <= j < |Combinations()| ==> !Matches(Combinations()[j], "air", "water")
  {
  }

  /** The entries of the extra recipe table that the lemmas below rely on. */
  lemma ExtraTableFacts()
    ensures ExtraCombinations()[12] == C("water", "air", "cloud", Easy)
    ensures ExtraCombinations()[21] == C("metal", "electricity", "robot", Hard)
    ensures forall j :: 0 <= j < 12 ==> !Matches(ExtraCombinations()[j], "air", "water")
  {
  }

  /** Position `j` of the full table is in the main table, or in the extra one after it. */
  lemma AllCombinationsAt(rs: seq<Combination>)
    requires rs == GetAllCombinations()
    ensures |rs| == 57
    ensures forall j :: 0 <= j < 31 ==> rs[j] == Combinations()[j]
    ensures forall j :: 31 <= j < 57 ==> rs[j] == ExtraCombinations()[j - 31]
  {
  }

  /** Fire and earth make lava, in either order. */
  lemma FireAndEarthMakeLava()
    ensures FindCombination(GetAllCombinations(), "fire", "earth") == Some(C("earth", "fire", "lava", Easy))
    ensures FindCombination(GetAllCombinations(), "earth", "fire") == Some(C("earth", "fire", "lava", Easy))
  {
    var rs := GetAllCombinations();
    FireTableFacts();
    AllCombinationsAt(rs);
    FindCombinationIsFirst(rs, "fire", "earth", 1);
    FindCombinationSymmetric(rs, "fire", "earth");
  }

  /**
    A recipe listed after another recipe for the same pair, with a different
    result, is never the one found.
   */
  lemma ShadowedNeverFound(rs: seq<Combination>, k: nat, m: nat, x: Id, y: Id)
    requires k < m < |rs| && rs[k] != rs[m]
    requires Matches(rs[k], rs[m].first, rs[m].second)
    requires forall j :: 0 <= j < k ==> !Matches(rs[j], rs[m].first, rs[m].second)
    ensures FindCombination(rs, x, y) != Some(rs[m])
  {
    if Matches(rs[m], x, y) {
      FindCombinationIsFirst(rs, x, y, k);
    }
  }

  /** Within the main table, a recipe behind an earlier, different recipe for the same pair is never found in the full table. */
  lemma ShadowedInMainTable(k: nat, m: nat, x: Id, y: Id)
    requires k < m < |Combinations()| && Combinations()[k] != Combinations()[m]
    requires Matches(Combinations()[k], Combinations()[m].first, Combinations()[m].second)
    requires forall j :: 0 <= j < k ==> !Matches(Combinations()[j], Combinations()[m].first, Combinations()[m].second)
    ensures FindCombination(GetAllCombinations(), x, y) != Some(Combinations()[m])
  {
    var rs := GetAllCombinations();
    AllCombinationsAt(rs);
    ShadowedNeverFound(rs, k, m, x, y);
  }

  /** The smoke recipe (fire and earth) lies behind the lava recipe and is never used. */
  lemma SmokeIsShadowed(x: Id, y: Id)
    ensures FindCombination(GetAllCombinations(), x, y) != Some(C("fire", "earth", "smoke", Easy))
  {
    FireTableFacts();
    ShadowedInMainTable(1, 4, x, y);
  }

  /** The robot recipe (metal and electricity) lies behind the computer recipe and is never used. */
  lemma RobotIsShadowed(x: Id, y: Id)
    ensures GetAllCombinations()[52] == C("metal", "electricity", "robot", Hard)
    ensures FindCombination(GetAllCombinations(), x, y) != Some(C("metal", "electricity", "robot", Hard))
  {
    var rs := GetAllCombinations();
    ComputerTableFacts();
    ExtraTableFacts();
    AllCombinationsAt(rs);
    ShadowedNeverFound(rs, 25, 52, x, y);
  }

  /** Salt comes first for water and energy; the life recipe for the same pair comes later. */
  lemma WaterEnergyTableFacts()
    ensures Combinations()[9] == C("water", "energy", "salt", Medium)
    ensures Combinations()[11] == C("energy", "water", "life", Hard)
    ensures forall j :: 0 <= j < 9 ==> !Matches(Combinations()[j], "energy", "water")
  {
  }

  /** Wood comes first for earth and life; the plant recipe for the same pair comes later. */
  lemma EarthLifeTableFacts()
    ensures Combinations()[7] == C("earth", "life", "wood", Medium)
    ensures Combinations()[13] == C("life", "earth", "plant", Hard)
    ensures forall j :: 0 <= j < 7 ==> !Matches(Combinations()[j], "life", "earth")
  {
  }

  /** Metal comes first for fire and stone; the glass recipe for the same pair comes later. */
  lemma FireStoneTableFacts()
    ensures Combinations()[6] == C("fire", "stone", "metal", Medium)
    ensures Combinations()[22] == C("stone", "fire", "glass", Medium)
    ensures forall j :: 0 <= j < 6 ==> !Matches(Combinations()[j], "stone", "fire")
  {
  }

  /** The life recipe (energy and water) lies behind the salt recipe and is never used. */
  lemma LifeRecipeIsShadowed(x: Id, y: Id)
    ensures FindCombination(GetAllCombinations(), x, y) != Some(C("energy", "water", "life", Hard))
  {
    WaterEnergyTableFacts();
    ShadowedInMainTable(9, 11, x, y);
  }

  /** The plant recipe (life and earth) lies behind the wood recipe and is never used. */
  lemma PlantRecipeIsShadowed(x: Id, y: Id)
    ensures FindCombination(GetAllCombinations(), x, y) != Some(C("life", "earth", "plant", Hard))
  {
    EarthLifeTableFacts();
    ShadowedInMainTable(7, 13, x, y);
  }

  /** The glass recipe from stone and fire lies behind the metal recipe and is never used. */
  lemma GlassFromStoneIsShadowed(x: Id, y: Id)
    ensures FindCombination(GetAllCombinations(), x, y) != Some(C("stone", "fire", "glass", Medium))
  {
    FireStoneTableFacts();
    ShadowedInMainTable(6, 22, x, y);
  }

  /** Only the shadowed recipes yield life and plant. */
  lemma LifeAndPlantTableFacts()
    ensures forall j :: 0 <= j < |Combinations()| && j != 11 ==> Combinations()[j].result != "life"
    ensures forall j :: 0 <= j < |Combinations()| && j != 13 ==> Combinations()[j].result != "plant"
    ensures forall j :: 0 <= j < |ExtraCombinations()| ==> ExtraCombinations()[j].result != "life" && ExtraCombinations()[j].result != "plant"
  {
  }

  /**
    No pair of elements combines into life or plant: their only recipes are
    shadowed, so those elements can never be made by combining.
   */
  lemma LifeAndPlantNeverCombined(x: Id, y: Id)
    ensures FindCombination(GetAllCombinations(), x, y).Some? ==>
              FindCombination(GetAllCombinations(), x, y).value.result !in {"life", "plant"}
  {
    var rs := GetAllCombinations();
    var r := FindCombination(rs, x, y);
    if r.Some? {
      LifeAndPlantTableFacts();
      WaterEnergyTableFacts();
      EarthLifeTableFacts();
      AllCombinationsAt(rs);
      LifeRecipeIsShadowed(x, y);
      PlantRecipeIsShadowed(x, y);
      var i :| 0 <= i < |rs| && rs[i] == r.value;
      if i < 31 {
        assert rs[i] == Combinations()[i];
      } else {
        assert rs[i] == ExtraCombinations()[i - 31];
      }
    }
  }

  /**
    Air and water find the cloud recipe, but the element list has no cloud:
    with the catalogue's elements that combination always fails.
   */
  lemma AirAndWaterAlwaysFail(gs: GameState, achs: seq<Achievement>, now: nat)
    requires Ids(gs.elements) == Ids(InitialElements())
    ensures FindCombination(GetAllCombinations(), "air", "water") == Some(C("water", "air", "cloud", Easy))
    ensures LookUp(GetAllCombinations(), gs, "air", "water").MissingResult?
    ensures CombinedState(GetAllCombinations(), gs, achs, "air", "water", now) == Failed(gs)
  {
    var rs := GetAllCombinations();
    AirAndWaterFindCloud(rs);
    NoCloudAmong(gs.elements);
    MissingResultFails(rs, gs, achs, "air", "water", C("water", "air", "cloud", Easy), now);
  }

  /** A recipe whose result is not among the elements makes the combination fail. */
  lemma MissingResultFails(rs: seq<Combination>, gs: GameState, achs: seq<Achievement>, id1: Id, id2: Id, c: Combination, now: nat)
    requires FindCombination(rs, id1, id2) == Some(c)
    requires forall e :: e in gs.elements ==> e.id != c.result
    ensures LookUp(rs, gs, id1, id2) == MissingResult(c)
    ensures CombinedState(rs, gs, achs, id1, id2, now) == Failed(gs)
  {
    forall j | 0 <= j < |gs.elements| ensures gs.elements[j].id != c.result {
      assert gs.elements[j] in gs.elements;
    }
  }

  lemma AirAndWaterFindCloud(rs: seq<Combination>)
    requires rs == GetAllCombinations()
    ensures FindCombination(rs, "air", "water") == Some(C("water", "air", "cloud", Easy))
  {
    AirWaterNotInMainTable();
    ExtraTableFacts();
    AllCombinationsAt(rs);
    FindCombinationIsFirst(rs, "air", "water", 43);
  }

  /** A list with the catalogue's ids has no cloud. */
  lemma NoCloudAmong(es: seq<Element>)
    requires Ids(es) == Ids(InitialElements())
    ensures forall e :: e in es ==> e.id != "cloud"
  {
    var ids := Ids(InitialElements());
    assert forall i :: 0 <= i < |ids| ==> ids[i] != "cloud";
    forall e | e in es ensures e.id != "cloud" {
      var i :| 0 <= i < |es| && es[i] == e;
      assert e.id == ids[i];
    }
  }

  // ----- Queries -----

  /** The grouping fold of `getElementsByCategory` (gameLogic.ts), applied to a list in order. */
  function GroupByCategory(es: seq<Element>): map<Category, seq<Element>>
    decreases |es|
  {
    if |es| == 0 then map[]
    else
      var m := GroupByCategory(es[..|es| - 1]);
      var e := es[|es| - 1];
      m[e.category := (if e.category in m then m[e.category] else []) + [e]]
  }

  /** A category is a key of the grouping exactly when some element has it. */
  lemma {:induction false} GroupByCategoryKeys(es: seq<Element>, c: Category)
    ensures c in GroupByCategory(es) <==> exists i :: 0 <= i < |es| && es[i].category == c
    decreases |es|
  {
    if |es| > 0 {
      var init := es[..|es| - 1];
      GroupByCategoryKeys(init, c);
      forall i | 0 <= i < |init| ensures es[i] == init[i] {
      }
    }
  }

  /** The group of a category is that category's elements, in list order. */
  lemma {:induction false} GroupByCategoryValues(es: seq<Element>, c: Category)
    ensures c in GroupByCategory(es) ==> GroupByCategory(es)[c] == GetElementsByCategory(es, c)
    decreases |es|
  {
    if |es| > 0 {
      var init, e := es[..|es| - 1], es[|es| - 1];
      var m := GroupByCategory(init);
      GroupByCategoryValues(init, c);
      GetElementsByCategoryLast(es, c);
      if e.category != c {
        assert GetElementsByCategory(es, c) == GetElementsByCategory(init, c) + [];
        assert GetElementsByCategory(init, c) + [] == GetElementsByCategory(init, c);
      } else if c !in m {
        GroupByCategoryKeys(init, c);
        GetElementsByCategoryNone(init, c);
        assert GroupByCategory(es)[c] == [] + [e];
      }
    }
  }

  /** The elements of a category in a nonempty list: those before the last element, then the last one if it has the category. */
  lemma GetElementsByCategoryLast(es: seq<Element>, c: Category)
    requires |es| > 0
    ensures GetElementsByCategory(es, c) ==
      GetElementsByCategory(es[..|es| - 1], c) + (if es[|es| - 1].category == c then [es[|es| - 1]] else [])
  {
    assert es == es[..|es| - 1] + [es[|es| - 1]];
    GetElementsByCategorySnoc(es[..|es| - 1], es[|es| - 1], c);
  }

  /** `getElementsByCategory` of gameLogic.ts: the discovered elements grouped by category. */
  function GroupDiscoveredByCategory(gs: GameState): map<Category, seq<Element>>
  {
    GroupByCategory(Discovered(gs.elements))
  }

  /** A category is a key exactly when a discovered element has it. */
  lemma GroupDiscoveredByCategoryKeys(gs: GameState, c: Category)
    ensures c in GroupDiscoveredByCategory(gs) <==> exists e :: e in gs.elements && e.discovered && e.category == c
  {
    var d := Discovered(gs.elements);
    GroupByCategoryKeys(d, c);
    if exists e :: e in gs.elements && e.discovered && e.category == c {
      var e :| e in gs.elements && e.discovered && e.category == c;
      var i :| 0 <= i < |d| && d[i] == e;
    }
  }

  /** The group of a category is its discovered elements, in list order, and is never empty. */
  lemma GroupDiscoveredByCategoryValues(gs: GameState, c: Category)
    requires c in GroupDiscoveredByCategory(gs)
    ensures GroupDiscoveredByCategory(gs)[c] == GetElementsByCategory(Discovered(gs.elements), c)
    ensures |GroupDiscoveredByCategory(gs)[c]| > 0
  {
    var d := Discovered(gs.elements);
    GroupByCategoryKeys(d, c);
    GroupByCategoryValues(d, c);
    var i :| 0 <= i < |d| && d[i].category == c;
    assert d[i] in GetElementsByCategory(d, c);
  }

  /** The result of `getGameStats`; the percentage is `None` where the source computes NaN. */
  datatype GameStats = GameStats(
    totalElements: nat,
    discoveredElements: nat,
    percentComplete: Option<int>,
    basicElements: nat,
    compoundElements: nat,
    advancedElements: nat,
    rareElements: nat,
    scientificElements: nat)

  /** The number of elements of a category in a list. */
  function CountOf(es: seq<Element>, c: Category): nat
  {
    |GetElementsByCategory(es, c)|
  }

  /** Every element has exactly one of the five categories, so the per-category counts add up to the length. */
  lemma {:induction false} CategoryCountsSum(es: seq<Element>)
    ensures CountOf(es, Basic) + CountOf(es, Compound) + CountOf(es, Advanced) + CountOf(es, Rare) +
      CountOf(es, Scientific) == |es|
    decreases |es|
  {
    if |es| > 0 {
      CategoryCountsSum(es[1..]);
      CountOfUnfold(es, Basic);
      CountOfUnfold(es, Compound);
      CountOfUnfold(es, Advanced);
      CountOfUnfold(es, Rare);
      CountOfUnfold(es, Scientific);
    }
  }

  /** Head-and-tail form of a category count. */
  lemma CountOfUnfold(es: seq<Element>, c: Category)
    requires |es| > 0
    ensures CountOf(es, c) == (if es[0].category == c then 1 else 0) + CountOf(es[1..], c)
  {
    FilterUnfold(es, (e: Element) => e.category == c);
  }

  /** `Math.round(part / whole * 100)`, or `None` (NaN) when the whole is empty. */
  function Percent(part: nat, whole: nat): (p: Option<int>)
    ensures p.Some? <==> whole > 0
    ensures p.Some? ==> p.value == RoundPercent(part, whole)
    ensures p.Some? && part <= whole ==> 0 <= p.value <= 100
  {
    if whole == 0 then None
    else
      if part <= whole then RoundPercentBounds(part, whole); Some(RoundPercent(part, whole))
      else Some(RoundPercent(part, whole))
  }

  /** `getGameStats`: totals, the rounded completion percentage and the discovered count per category. */
  function GetGameStats(gs: GameState): (st: GameStats)
    ensures st.totalElements == |gs.elements| && st.discoveredElements == DiscoveredCount(gs.elements)
    ensures st.discoveredElements <= st.totalElements
    ensures st.basicElements + st.compoundElements + st.advancedElements + st.rareElements +
      st.scientificElements == st.discoveredElements
    ensures st.percentComplete.Some? <==> |gs.elements| > 0
    ensures st.percentComplete.Some? ==> 0 <= st.percentComplete.value <= 100
    ensures st.percentComplete == Percent(st.discoveredElements, st.totalElements)
    ensures st.basicElements == CountOf(Discovered(gs.elements), Basic)
    ensures st.compoundElements == CountOf(Discovered(gs.elements), Compound)
    ensures st.advancedElements == CountOf(Discovered(gs.elements), Advanced)
    ensures st.rareElements == CountOf(Discovered(gs.elements), Rare)
    ensures st.scientificElements == CountOf(Discovered(gs.elements), Scientific)
  {
    var d := Discovered(gs.elements);
    CategoryCountsSum(d);
    GameStats(|gs.elements|, |d|, Percent(|d|, |gs.elements|),
      CountOf(d, Basic), CountOf(d, Compound), CountOf(d, Advanced), CountOf(d, Rare), CountOf(d, Scientific))
  }

  /**
    A recipe the player can try and learn from: both ingredients discovered,
    and its result in the list and not yet discovered.
   */
  predicate IsPossible(c: Combination, gs: GameState)
  {
    && (exists i :: 0 <= i < |gs.elements| && gs.elements[i].id == c.first && gs.elements[i].discovered)
    && (exists i :: 0 <= i < |gs.elements| && gs.elements[i].id == c.second && gs.elements[i].discovered)
    && GetElementByID(gs, c.result).Some? && !GetElementByID(gs, c.result).value.discovered
  }

  /** `getPossibleCombinations`, over the recipe table `rs`. */
  function GetPossibleCombinations(rs: seq<Combination>, gs: GameState): (r: seq<Combination>)
    ensures forall c :: c in r <==> c in rs && IsPossible(c, gs)
    ensures IsSubsequence(r, rs)
    ensures forall c {:trigger multiset(r)[c]} :: multiset(r)[c] == if IsPossible(c, gs) then multiset(rs)[c] else 0
  {
    Filter(rs, (c: Combination) => IsPossible(c, gs))
  }

  datatype HintTemplate = TryCombining | WhatHappens | HaveYouTried | MagicalReaction | MightCreate

  /** The five hint sentences, in the order the source lists them. */
  function HintTemplates(): seq<HintTemplate>
  {
    [TryCombining, WhatHappens, HaveYouTried, MagicalReaction, MightCreate]
  }

  /** What `getRandomHint` returns; a suggestion names its two elements (`elements: [id1, id2]`). */
  datatype Hint =
    | MostDiscovered
    | StuckAtStart
    | PairUnpaired
    | Suggest(template: HintTemplate, first: Element, second: Element)
    | KeepExperimenting

  /**
    `getRandomHint`. `Math.floor(Math.random() * n)` is `pick % n`, so any
    natural number picks a valid index and every index can be picked.
   */
  function GetRandomHint(rs: seq<Combination>, gs: GameState, comboPick: nat, templatePick: nat): (h: Hint)
    ensures h.Suggest? <==> |GetPossibleCombinations(rs, gs)| > 0
    ensures !h.KeepExperimenting?
    ensures h.Suggest? ==>
      && h.first in gs.elements && h.second in gs.elements
      && exists c :: c in GetPossibleCombinations(rs, gs) && c.first == h.first.id && c.second == h.second.id
    ensures h.MostDiscovered? <==>
      |GetPossibleCombinations(rs, gs)| == 0 && 5 * DiscoveredCount(gs.elements) > 4 * |gs.elements|
    ensures h.StuckAtStart? <==>
      |GetPossibleCombinations(rs, gs)| == 0 && 5 * DiscoveredCount(gs.elements) <= 4 * |gs.elements|
      && DiscoveredCount(gs.elements) <= 6
    ensures h.PairUnpaired? <==>
      |GetPossibleCombinations(rs, gs)| == 0 && 5 * DiscoveredCount(gs.elements) <= 4 * |gs.elements|
      && DiscoveredCount(gs.elements) > 6
  {
    var possible := GetPossibleCombinations(rs, gs);
    if |possible| == 0 then
      var d := DiscoveredCount(gs.elements);
      if 5 * d > 4 * |gs.elements| then MostDiscovered
      else if d <= 6 then StuckAtStart
      else PairUnpaired
    else
      var combo := possible[comboPick % |possible|];
      assert combo in possible;
      match (GetElementByID(gs, combo.first), GetElementByID(gs, combo.second))
      case (Some(e1), Some(e2)) => Suggest(HintTemplates()[templatePick % 5], e1, e2)
      case _ => assert false; KeepExperimenting
  }

  /** What `getAIAssistantMessage` says, by band of the rounded discovered percentage. */
  datatype AssistantMessage =
    | StartWithBasics
    | GreatProgress(discovered: nat)
    | KeepGoing(discovered: nat, percent: int, hint: Hint)
    | MasterAlchemist(discovered: nat)
    | Impressive(discovered: nat, total: nat, roundedPercent: Option<int>)

  /** The band of a percentage: below 10, 25, 50, 75, or otherwise; NaN fails every comparison. */
  function Band(p: Option<int>): nat
  {
    if p.None? then 4
    else if p.value < 10 then 0
    else if p.value < 25 then 1
    else if p.value < 50 then 2
    else if p.value < 75 then 3
    else 4
  }

  /** `getAIAssistantMessage`. The hint is drawn whatever the band, as in the source. */
  function GetAIAssistantMessage(rs: seq<Combination>, gs: GameState, comboPick: nat, templatePick: nat): (m: AssistantMessage)
    ensures var b := Band(Percent(DiscoveredCount(gs.elements), |gs.elements|));
      && (b == 0 <==> m.StartWithBasics?) && (b == 1 <==> m.GreatProgress?) && (b == 2 <==> m.KeepGoing?)
      && (b == 3 <==> m.MasterAlchemist?) && (b == 4 <==> m.Impressive?)
    ensures |gs.elements| == 0 ==> m == Impressive(0, 0, None)
  {
    var d := DiscoveredCount(gs.elements);
    var t := |gs.elements|;
    var p := Percent(d, t);
    var hint := GetRandomHint(rs, gs, comboPick, templatePick);
    match Band(p)
    case 0 => StartWithBasics
    case 1 => GreatProgress(d)
    case 2 => KeepGoing(d, p.value, hint)
    case 3 => MasterAlchemist(d)
    case _ => Impressive(d, t, p)
  }

  /** With the same number of elements, discovering more never moves the message to an earlier band. */
  lemma AssistantBandMonotone(d1: nat, d2: nat, total: nat)
    requires d1 <= d2 <= total
    ensures Band(Percent(d1, total)) <= Band(Percent(d2, total))
  {
    if total > 0 {
      RoundPercentMonotone(d1, d2, total);
    }
  }

  /**
    With the catalogue's 35 elements and the four basic ones discovered from
    the start, the opening message ("start by combining the basic elements")
    can never be shown: four of 35 already rounds to 11 percent.
   */
  lemma OpeningMessageUnreachable(rs: seq<Combination>, gs: GameState, comboPick: nat, templatePick: nat)
    requires |gs.elements| == 35 && DiscoveredCount(gs.elements) >= 4
    ensures !GetAIAssistantMessage(rs, gs, comboPick, templatePick).StartWithBasics?
  {
    assert RoundPercent(4, 35) == 11;
    AssistantBandMonotone(4, DiscoveredCount(gs.elements), 35);
  }

  /** A new game has its four basic elements discovered. */
  lemma FreshGameDiscoveredCount(counts: CountTable)
    ensures DiscoveredCount(FreshGameState(counts).elements) == 4
  {
    InitialDiscoveredAreTheBasics();
    DiscoveredCountPrefix(InitialElements(), 4);
  }

  /** When exactly the first `k` elements are discovered, `k` are discovered. */
  lemma {:induction false} DiscoveredCountPrefix(es: seq<Element>, k: nat)
    requires k <= |es|
    requires forall i :: 0 <= i < |es| ==> (es[i].discovered <==> i < k)
    ensures DiscoveredCount(es) == k
    decreases |es|
  {
    if |es| > 0 {
      DiscoveredCountUnfold(es);
      DiscoveredCountPrefix(es[1..], if k > 0 then k - 1 else 0);
    }
  }

  // ----- Updates of the interface state -----

  /** `viewElementDetails`: only the viewed element changes. */
  function ViewElementDetails(gp: GameProgress, elementId: Option<Id>): (r: GameProgress)
    ensures r.achievementState == gp.achievementState
    ensures r.gameState.viewedElementDetails == elementId
    ensures r.gameState.(viewedElementDetails := gp.gameState.viewedElementDetails) == gp.gameState
  {
    gp.(gameState := gp.gameState.(viewedElementDetails := elementId))
  }

  /** `toggleFavorite`: removes every occurrence of the id if present, appends it otherwise. */
  function ToggleFavorite(gp: GameProgress, elementId: Id): (r: GameProgress)
    ensures r.achievementState == gp.achievementState
    ensures r.gameState.(favorites := gp.gameState.favorites) == gp.gameState
    ensures elementId in r.gameState.favorites <==> elementId !in gp.gameState.favorites
    ensures forall x :: x != elementId ==> (x in r.gameState.favorites <==> x in gp.gameState.favorites)
    ensures elementId !in gp.gameState.favorites ==> r.gameState.favorites == gp.gameState.favorites + [elementId]
    ensures elementId in gp.gameState.favorites ==>
      && IsSubsequence(r.gameState.favorites, gp.gameState.favorites)
      && forall x {:trigger multiset(r.gameState.favorites)[x]} :: x != elementId ==>
           multiset(r.gameState.favorites)[x] == multiset(gp.gameState.favorites)[x]
  {
    var favorites := gp.gameState.favorites;
    var newFavorites := if elementId in favorites then Filter(favorites, (x: Id) => x != elementId) else favorites + [elementId];
    gp.(gameState := gp.gameState.(favorites := newFavorites))
  }

  /** Toggling an element that is not a favourite twice restores the favourites exactly. */
  lemma ToggleFavoriteTwice(gp: GameProgress, elementId: Id)
    requires elementId !in gp.gameState.favorites
    ensures ToggleFavorite(ToggleFavorite(gp, elementId), elementId) == gp
  {
    var fs := gp.gameState.favorites;
    FilterAppend(fs, [elementId], (x: Id) => x != elementId);
    FilterKeepsAll(fs, (x: Id) => x != elementId);
  }

  /**
    `attemptCombination`: combines the two slots when both are filled. On a
    success the element returned is the recipe's result as found in the new
    state (both the new-discovery branch and the repeat branch find it).
   */
  method AttemptCombination(gp: GameProgress, now: nat)
    returns (newProgress: GameProgress, success: bool, newElement: Option<Element>)
    modifies gp.gameState.combinationCounts, gp.achievementState
    ensures gp.gameState.combiningElements.0.None? || gp.gameState.combiningElements.1.None? ==>
              && newProgress == gp && !success && newElement == None
              && unchanged(gp.gameState.combinationCounts, gp.achievementState)
    ensures gp.gameState.combiningElements.0.Some? && gp.gameState.combiningElements.1.Some? ==>
              var (a, b) := (gp.gameState.combiningElements.0.value, gp.gameState.combiningElements.1.value);
              && (success <==> LookUp(GetAllCombinations(), gp.gameState, a, b).Found?)
              && newProgress.gameState ==
                   CombinedState(GetAllCombinations(), gp.gameState, old(gp.achievementState.achievements), a, b, now)
              && (!success ==> newElement == None)
              && (success ==>
                    && newElement.Some?
                    && Some(newElement.value) == GetElementByID(newProgress.gameState, LookUp(GetAllCombinations(), gp.gameState, a, b).recipe.result)
                    && newElement.value.discovered)
    ensures gp.gameState.combiningElements.0.Some? && gp.gameState.combiningElements.1.Some? ==>
              var (a, b) := (gp.gameState.combiningElements.0.value, gp.gameState.combiningElements.1.value);
              && (!success ==>
                    && newProgress.achievementState == gp.achievementState
                    && unchanged(gp.gameState.combinationCounts, gp.achievementState))
              && (success ==>
                    var s := CheckedAgainst(GetAllCombinations(), gp.gameState, a, b, now);
                    var newly := NewlyUnlocked(s, old(gp.achievementState.achievements));
                    && gp.gameState.combinationCounts.counts == AddEach(old(gp.gameState.combinationCounts.counts), [a, b], 1)
                    && fresh(newProgress.achievementState)
                    && newProgress.achievementState.achievements == Checked(s, old(gp.achievementState.achievements))
                    && newProgress.achievementState.lastUnlocked == LastUnlockedAfter(newly, old(gp.achievementState.lastUnlocked))
                    && gp.achievementState.lastUnlocked == newProgress.achievementState.lastUnlocked
                    && gp.achievementState.achievements == old(gp.achievementState.achievements))
  {
    var (slot1, slot2) := gp.gameState.combiningElements;
    if slot1.None? || slot2.None? {
      return gp, false, None;
    }
    var rs := GetAllCombinations();
    var newDiscovery;
    newProgress, newDiscovery, success := CombineElements(rs, gp, slot1.value, slot2.value, now);
    if !success {
      return newProgress, false, None;
    }
    ghost var f := LookUp(rs, gp.gameState, slot1.value, slot2.value);
    CombineDiscovers(rs, gp.gameState, old(gp.achievementState.achievements), slot1.value, slot2.value, now);
    if newDiscovery.Some? {
      newElement := GetElementByID(newProgress.gameState, newDiscovery.value.result);
    } else {
      var c := FindCombinationUnsorted(rs, slot1.value, slot2.value);
      newElement := GetElementByID(newProgress.gameState, c.value.result);
    }
    assert newProgress.gameState.elements[f.resultIndex].id == f.recipe.result;
  }

  /** The lookup in `attemptCombination`'s repeat branch: the first recipe matching the unsorted pair. */
  function FindCombinationUnsorted(rs: seq<Combination>, id1: Id, id2: Id): (r: Option<Combination>)
    ensures r == FindCombination(rs, id1, id2)
  {
    FirstMatchIndexSymmetric(rs, id1, id2);
    match FirstMatchIndex(rs, id1, id2)
    case None => None
    case Some(k) => Some(rs[k])
  }

  /** Matching ignores order, so the first match of a pair and of its swap are the same. */
  lemma FirstMatchIndexSymmetric(rs: seq<Combination>, x: Id, y: Id)
    ensures FirstMatchIndex(rs, x, y) == FirstMatchIndex(rs, y, x)
  {
    match FirstMatchIndex(rs, x, y)
    case None =>
    case Some(k) => FirstMatchAt(rs, y, x, k);
  }

  /** What `localStorage` held under the save key, as `JSON.parse` left it. */
  datatype SavedGame =
    | NoSave
    | Unparsable
    | Parsed(hasGameState: bool, elementsIsArray: bool, discoveriesIsArray: bool, progress: GameProgress)

  /** The shape check of `initializeGame` that a parsed save must pass. */
  predicate IsUsableSave(saved: SavedGame)
  {
    saved.Parsed? && saved.hasGameState && saved.elementsIsArray && saved.discoveriesIsArray
  }

  /**
    `initializeGame`: the saved progress when it passes the shape check,
    otherwise a new game with its own empty count table and the achievement
    catalogue, all locked.
   */
  method InitializeGame(saved: SavedGame) returns (gp: GameProgress)
    ensures IsUsableSave(saved) ==> gp == saved.progress
    ensures !IsUsableSave(saved) ==>
              && fresh(gp.gameState.combinationCounts) && fresh(gp.achievementState)
              && gp.gameState == FreshGameState(gp.gameState.combinationCounts)
              && gp.gameState.combinationCounts.counts == map[]
              && gp.achievementState.achievements == InitializeAchievements()
              && gp.achievementState.lastUnlocked == None
  {
    if IsUsableSave(saved) {
      return saved.progress;
    }
    var counts := new CountTable(map[]);
    var achievementState := new AchievementState(InitializeAchievements(), None);
    gp := GameProgress(FreshGameState(counts), achievementState);
  }

  /** `resetGame`: the save is removed, so the game starts afresh. */
  method ResetGame() returns (gp: GameProgress)
    ensures fresh(gp.gameState.combinationCounts) && fresh(gp.achievementState)
    ensures gp.gameState == FreshGameState(gp.gameState.combinationCounts)
    ensures gp.achievementState.achievements == InitializeAchievements() && gp.achievementState.lastUnlocked == None
    ensures gp.gameState.combinationCounts.counts == map[]
  {
    gp := InitializeGame(NoSave);
  }
}
