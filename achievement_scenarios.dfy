/**
  A worked scenario of the achievement system of
  src/utils/achievementSystem.ts: the achievements a new game unlocks when
  its first compound (steam, from water and fire) is made.
 */
module AchievementScenarios {
  import opened Wrappers
  import opened ElementData
  import opened GameTypes
  import opened Achievements
  import opened GameLogic

  /** Every discovered element is basic or compound, not legendary, and none of the elements named by an achievement. */
  predicate OnlyBasicsAndCompounds(es: seq<Element>)
  {
    forall i :: 0 <= i < |es| && es[i].discovered ==>
      && (es[i].category == Basic || es[i].category == Compound)
      && es[i].rarity != Some(Legendary)
      && es[i].id !in {"life", "human", "time", "dragon", "internet", "universe"}
  }

  /**
    The state right after a new game's first compound: a discovery logged,
    five elements discovered (the four basics and a compound), nothing else,
    and no streak of three yet.
   */
  predicate AfterFirstCompound(gs: GameState)
  {
    var es := gs.elements;
    && |gs.discoveries| > 0 && DiscoveredCount(es) == 5 && gs.successfulCombosInARow < 3
    && (forall i :: 0 <= i < |es| && es[i].category == Basic ==> es[i].discovered)
    && (exists i :: 0 <= i < |es| && es[i].category == Compound && es[i].discovered)
    && OnlyBasicsAndCompounds(es)
  }

  /** A condition that asks for more than the basics and a compound. */
  predicate BeyondFirstCompound(c: Condition)
  {
    match c
    case AnyOfCategoryDiscovered(cat) => cat != Basic && cat != Compound
    case AnyOfRarityDiscovered(r) => r == Legendary
    case ElementDiscovered(id) => id in {"life", "human", "time", "dragon", "internet", "universe"}
    case StreakAtLeast(n) => n >= 3
    case EveryCategoryDiscovered => true
    case _ => false
  }

  /** With only basics and compounds discovered and no streak of three, no such condition holds. */
  lemma BeyondFirstCompoundFails(gs: GameState, c: Condition)
    requires OnlyBasicsAndCompounds(gs.elements) && gs.successfulCombosInARow < 3
    requires BeyondFirstCompound(c)
    ensures !Holds(c, gs)
  {
    if c == EveryCategoryDiscovered {
      assert GetAllCategories()[2] == Advanced;
    }
  }

  /** The first six achievements of a new game: discovery counts, the basics, the first compound. */
  lemma InitialEarly()
    ensures InitializeAchievements()[..6] ==
      [ Locked("first_discovery", HasDiscoveries),
        Locked("five_discoveries", DiscoveredAtLeast(5)),
        Locked("ten_discoveries", DiscoveredAtLeast(10)),
        Locked("twenty_discoveries", DiscoveredAtLeast(20)),
        Locked("all_basic", AllOfCategoryDiscovered(Basic)),
        Locked("first_compound", AnyOfCategoryDiscovered(Compound)) ]
  {
  }

  /** Every achievement of a new game after the first six asks for more than the basics and a compound. */
  lemma InitialLate()
    ensures forall j :: 6 <= j < |InitializeAchievements()| ==> BeyondFirstCompound(InitializeAchievements()[j].condition)
  {
  }

  /** In that state none of the achievements after the first six flips. */
  lemma FirstCompoundLateNone(gs: GameState)
    requires OnlyBasicsAndCompounds(gs.elements) && gs.successfulCombosInARow < 3
    ensures NewlyUnlocked(gs, InitializeAchievements()[6..]) == []
  {
    var achs := InitializeAchievements();
    var late := achs[6..];
    InitialLate();
    forall j | 0 <= j < |late| ensures !Flips(late[j], gs) {
      assert late[j] == achs[j + 6];
      BeyondFirstCompoundFails(gs, late[j].condition);
    }
    LastUnlockedUnchanged(gs, late, None);
  }

  /** One more achievement at the end of the list is reported exactly when it flips. */
  lemma NewlyUnlockedSnoc(gs: GameState, init: seq<Achievement>, a: Achievement)
    ensures NewlyUnlocked(gs, init + [a]) == NewlyUnlocked(gs, init) + (if Flips(a, gs) then [a.(unlocked := true)] else [])
  {
    assert (init + [a])[..|init|] == init;
  }

  /** Which of the first six achievements flip in that state: all but the ten and twenty discoveries. */
  lemma FirstCompoundEarlyFlips(gs: GameState)
    requires |gs.discoveries| > 0 && DiscoveredCount(gs.elements) == 5
    requires forall i :: 0 <= i < |gs.elements| && gs.elements[i].category == Basic ==> gs.elements[i].discovered
    requires exists i :: 0 <= i < |gs.elements| && gs.elements[i].category == Compound && gs.elements[i].discovered
    ensures var p := InitializeAchievements()[..6];
      && Flips(p[0], gs) && Flips(p[1], gs) && !Flips(p[2], gs)
      && !Flips(p[3], gs) && Flips(p[4], gs) && Flips(p[5], gs)
  {
    InitialEarly();
  }

  /** Six achievements of which all but the third and fourth flip report those four, in order. */
  lemma NewlyUnlockedSkippingTwo(gs: GameState, p: seq<Achievement>)
    requires |p| == 6
    requires Flips(p[0], gs) && Flips(p[1], gs) && !Flips(p[2], gs)
    requires !Flips(p[3], gs) && Flips(p[4], gs) && Flips(p[5], gs)
    ensures NewlyUnlocked(gs, p) == [p[0].(unlocked := true), p[1].(unlocked := true), p[4].(unlocked := true), p[5].(unlocked := true)]
  {
    assert p[..1] == [] + [p[0]];
    NewlyUnlockedSnoc(gs, [], p[0]);
    assert p[..2] == p[..1] + [p[1]];
    NewlyUnlockedSnoc(gs, p[..1], p[1]);
    assert p[..3] == p[..2] + [p[2]];
    NewlyUnlockedSnoc(gs, p[..2], p[2]);
    assert p[..4] == p[..3] + [p[3]];
    NewlyUnlockedSnoc(gs, p[..3], p[3]);
    assert p[..5] == p[..4] + [p[4]];
    NewlyUnlockedSnoc(gs, p[..4], p[4]);
    assert p == p[..5] + [p[5]];
    NewlyUnlockedSnoc(gs, p[..5], p[5]);
  }

  /**
    The first compound of a new game (water and fire make steam, the fifth
    element): a new game's list unlocks exactly the first discovery, five
    discoveries, all basics and first compound achievements, in that order,
    and the last of them, the first compound, becomes the last unlocked.
   */
  lemma FirstCompoundUnlocks(gs: GameState, previous: Option<string>)
    requires AfterFirstCompound(gs)
    ensures NewlyUnlocked(gs, InitializeAchievements()) ==
              [ Achievement("first_discovery", true, HasDiscoveries, None),
                Achievement("five_discoveries", true, DiscoveredAtLeast(5), None),
                Achievement("all_basic", true, AllOfCategoryDiscovered(Basic), None),
                Achievement("first_compound", true, AnyOfCategoryDiscovered(Compound), None) ]
    ensures LastUnlockedAfter(NewlyUnlocked(gs, InitializeAchievements()), previous) == Some("first_compound")
  {
    var achs := InitializeAchievements();
    assert achs == achs[..6] + achs[6..];
    NewlyUnlockedAppend(gs, achs[..6], achs[6..]);
    FirstCompoundEarlyFlips(gs);
    NewlyUnlockedSkippingTwo(gs, achs[..6]);
    FirstCompoundLateNone(gs);
    InitialEarly();
  }

  /** The first five elements of the catalogue: the four basics and steam, all common. */
  lemma FirstFiveElements()
    ensures |InitialElements()| == 35
    ensures InitialElements()[..5] ==
      [ E("air", "Air", Basic, true, Common),
        E("water", "Water", Basic, true, Common),
        E("fire", "Fire", Basic, true, Common),
        E("earth", "Earth", Basic, true, Common),
        E("steam", "Steam", Compound, false, Common) ]
  {
  }

  /** `FindElement` finds the first element with the id. */
  lemma FindElementAt(es: seq<Element>, id: Id, k: nat)
    requires k < |es| && es[k].id == id
    requires forall j :: 0 <= j < k ==> es[j].id != id
    ensures FindElement(es, id) == Some(k)
  {
  }

  /** Water and fire make steam, the first recipe of the table. */
  lemma WaterAndFireMakeSteam()
    ensures FindCombination(GetAllCombinations(), "water", "fire") == Some(C("water", "fire", "steam", Easy))
  {
    var rs := GetAllCombinations();
    SteamTableFact();
    AllCombinationsAt(rs);
    FindCombinationIsFirst(rs, "water", "fire", 0);
  }

  lemma SteamTableFact()
    ensures Combinations()[0] == C("water", "fire", "steam", Easy)
  {
  }

  /** Steam is the fifth element of the catalogue and the first with its id. */
  lemma SteamIsFifth(es: seq<Element>)
    requires es == InitialElements()
    ensures FindElement(es, "steam") == Some(4)
  {
    FirstFiveElements();
    var p := es[..5];
    assert es[4] == p[4];
    forall j | 0 <= j < 4 ensures es[j].id != "steam" {
      assert es[j] == p[j];
    }
    FindElementAt(es, "steam", 4);
  }

  /** A recipe found whose result is present is what the lookups of `combineElements` report. */
  lemma LookUpFinds(rs: seq<Combination>, gs: GameState, id1: Id, id2: Id, c: Combination, k: nat)
    requires FindCombination(rs, id1, id2) == Some(c) && FindElement(gs.elements, c.result) == Some(k)
    ensures LookUp(rs, gs, id1, id2) == Found(c, k)
  {
  }

  /** In a new game, water and fire find steam, the fifth element of the list. */
  lemma FreshWaterFireLookUp(rs: seq<Combination>, gs: GameState)
    requires rs == GetAllCombinations() && gs.elements == InitialElements()
    ensures LookUp(rs, gs, "water", "fire") == Found(C("water", "fire", "steam", Easy), 4)
  {
    WaterAndFireMakeSteam();
    SteamIsFifth(gs.elements);
    LookUpFinds(rs, gs, "water", "fire", C("water", "fire", "steam", Easy), 4);
  }

  /** Steam is the one undiscovered element of the catalogue with its id. */
  lemma SteamUndiscoveredOnce(es: seq<Element>)
    requires es == InitialElements()
    ensures !es[4].discovered
    ensures |UndiscoveredWithId(es, "steam")| == 1
  {
    FirstFiveElements();
    assert es[4] == es[..5][4];
    InitialIdsDistinct();
    UndiscoveredWithIdDistinct(es, "steam");
  }

  /** Marking steam in the catalogue discovers five elements. */
  lemma SteamMakesFive(es: seq<Element>)
    requires es == InitialElements()
    ensures DiscoveredCount(MarkDiscovered(es, "steam")) == 5
  {
    SteamUndiscoveredOnce(es);
    MarkDiscoveredCount(es, "steam");
    InitialFourDiscovered(es);
  }

  /** The catalogue starts with four elements discovered. */
  lemma InitialFourDiscovered(es: seq<Element>)
    requires es == InitialElements()
    ensures DiscoveredCount(es) == 4
  {
    InitialDiscoveredAreTheBasics();
    DiscoveredCountPrefix(es, 4);
  }

  /** After marking steam, only the first five elements are discovered. */
  lemma SteamOnlyNewDiscovery(es: seq<Element>)
    requires es == InitialElements()
    ensures forall i :: 0 <= i < |es| && MarkDiscovered(es, "steam")[i].discovered ==> i < 5
  {
    FirstFiveElements();
    assert es[4] == es[..5][4];
    InitialIdsDistinct();
    InitialDiscoveredAreTheBasics();
    forall i | 5 <= i < |es| ensures !MarkDiscovered(es, "steam")[i].discovered {
      assert es[i].id != es[4].id;
    }
  }

  /** After marking steam, the state's elements have the shape `AfterFirstCompound` asks for. */
  lemma SteamElementsShape(es: seq<Element>)
    requires es == InitialElements()
    ensures var m := MarkDiscovered(es, "steam");
      && (forall i :: 0 <= i < |m| && m[i].category == Basic ==> m[i].discovered)
      && m[4].category == Compound && m[4].discovered
      && OnlyBasicsAndCompounds(m)
  {
    var m := MarkDiscovered(es, "steam");
    FirstFiveElements();
    var p := es[..5];
    forall i | 0 <= i < 5 ensures es[i] == p[i] {
    }
    SteamOnlyNewDiscovery(es);
    InitialBasicsAreTheFirstFour();
    InitialDiscoveredAreTheBasics();
  }

  /** A state whose elements are the catalogue's with steam marked, with a discovery logged and no streak of three, is one `AfterFirstCompound` describes. */
  lemma SteamStateShape(es: seq<Element>, s: GameState)
    requires es == InitialElements() && s.elements == MarkDiscovered(es, "steam")
    requires |s.discoveries| > 0 && s.successfulCombosInARow < 3
    ensures AfterFirstCompound(s)
  {
    SteamMakesFive(es);
    SteamElementsShape(es);
  }

  /** A success on a new result marks it, logs one more discovery and lengthens the streak by one. */
  lemma SucceededOnNew(rs: seq<Combination>, gs: GameState, id1: Id, id2: Id, now: nat, c: Combination, k: nat)
    requires LookUp(rs, gs, id1, id2) == Found(c, k) && !gs.elements[k].discovered
    ensures var s := CheckedAgainst(rs, gs, id1, id2, now);
      && s.elements == MarkDiscovered(gs.elements, gs.elements[k].id)
      && |s.discoveries| == |gs.discoveries| + 1 && s.successfulCombosInARow == gs.successfulCombosInARow + 1
  {
  }

  /** In a new game, a combination that finds steam marks it, logs the discovery and starts a streak of one. */
  lemma FreshSteamState(rs: seq<Combination>, gs: GameState, id1: Id, id2: Id, now: nat, c: Combination)
    requires LookUp(rs, gs, id1, id2) == Found(c, 4)
    requires 4 < |gs.elements| && gs.elements[4].id == "steam" && !gs.elements[4].discovered
    requires gs.discoveries == [] && gs.successfulCombosInARow == 0
    ensures var s := CheckedAgainst(rs, gs, id1, id2, now);
      && s.elements == MarkDiscovered(gs.elements, "steam")
      && |s.discoveries| == 1 && s.successfulCombosInARow == 1
  {
    SucceededOnNew(rs, gs, id1, id2, now, c, 4);
  }

  /** In a new game, any combination that finds steam leaves the state of `AfterFirstCompound`. */
  lemma SteamFoundIsFirstCompound(rs: seq<Combination>, gs: GameState, id1: Id, id2: Id, now: nat, c: Combination)
    requires LookUp(rs, gs, id1, id2) == Found(c, 4)
    requires gs.elements == InitialElements() && gs.discoveries == [] && gs.successfulCombosInARow == 0
    ensures AfterFirstCompound(CheckedAgainst(rs, gs, id1, id2, now))
  {
    SteamUndiscoveredOnce(gs.elements);
    SteamIsFifth(gs.elements);
    FreshSteamState(rs, gs, id1, id2, now, c);
    SteamStateShape(gs.elements, CheckedAgainst(rs, gs, id1, id2, now));
  }

  /**
    In a new game, combining water and fire gives the state the
    achievements are checked against the shape of `AfterFirstCompound`.
   */
  lemma FreshWaterFireIsFirstCompound(rs: seq<Combination>, gs: GameState, now: nat)
    requires rs == GetAllCombinations() && gs.elements == InitialElements()
    requires gs.discoveries == [] && gs.successfulCombosInARow == 0
    ensures LookUp(rs, gs, "water", "fire").Found?
    ensures AfterFirstCompound(CheckedAgainst(rs, gs, "water", "fire", now))
  {
    FreshWaterFireLookUp(rs, gs);
    SteamFoundIsFirstCompound(rs, gs, "water", "fire", now, C("water", "fire", "steam", Easy));
  }

  /** A new game's first combination of water and fire unlocks the four achievements of `FirstCompoundUnlocks`. */
  lemma FreshWaterFireUnlocks(counts: CountTable, now: nat, previous: Option<string>)
    ensures LookUp(GetAllCombinations(), FreshGameState(counts), "water", "fire").Found?
    ensures var s := CheckedAgainst(GetAllCombinations(), FreshGameState(counts), "water", "fire", now);
      && NewlyUnlocked(s, InitializeAchievements()) ==
           [ Achievement("first_discovery", true, HasDiscoveries, None),
             Achievement("five_discoveries", true, DiscoveredAtLeast(5), None),
             Achievement("all_basic", true, AllOfCategoryDiscovered(Basic), None),
             Achievement("first_compound", true, AnyOfCategoryDiscovered(Compound), None) ]
      && LastUnlockedAfter(NewlyUnlocked(s, InitializeAchievements()), previous) == Some("first_compound")
  {
    FreshWaterFireIsFirstCompound(GetAllCombinations(), FreshGameState(counts), now);
    FirstCompoundUnlocks(CheckedAgainst(GetAllCombinations(), FreshGameState(counts), "water", "fire", now), previous);
  }
}
