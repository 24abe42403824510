/**
  The static catalog of the game (src/utils/elementData.ts): the initial element list,
  the two recipe tables and the filters over element lists.
 */
module ElementData {
  import opened Wrappers
  import opened Seqs

  type Id = string

  datatype Category = Basic | Compound | Advanced | Rare | Scientific
  datatype Rarity = Common | Uncommon | RareRarity | Legendary
  datatype Difficulty = Easy | Medium | Hard | VeryHard

  /** An element; `discovered` is the only field the game ever changes. */
  datatype Element = Element(id: Id, name: string, category: Category, discovered: bool, rarity: Option<Rarity>)

  /** A recipe: the unordered pair `(first, second)` yields `result`. */
  datatype Combination = Combination(first: Id, second: Id, result: Id, difficulty: Option<Difficulty>)

  /** Shorthands for the two catalogs' entries. */
  function E(id: Id, name: string, c: Category, d: bool, r: Rarity): Element { Element(id, name, c, d, Some(r)) }
  function C(a: Id, b: Id, res: Id, d: Difficulty): Combination { Combination(a, b, res, Some(d)) }

  /** `initialElements`: the four basic elements discovered, every other one not yet. */
  function InitialElements(): seq<Element>
  {
    [ E("air", "Air", Basic, true, Common),
      E("water", "Water", Basic, true, Common),
      E("fire", "Fire", Basic, true, Common),
      E("earth", "Earth", Basic, true, Common),
      E("steam", "Steam", Compound, false, Common),
      E("lava", "Lava", Compound, false, Uncommon),
      E("mud", "Mud", Compound, false, Common),
      E("energy", "Energy", Compound, false, Uncommon),
      E("smoke", "Smoke", Compound, false, Common),
      E("dust", "Dust", Compound, false, Common),
      E("metal", "Metal", Compound, false, Uncommon),
      E("wood", "Wood", Compound, false, Common),
      E("stone", "Stone", Compound, false, Common),
      E("salt", "Salt", Compound, false, Common),
      E("alcohol", "Alcohol", Compound, false, Uncommon),
      E("life", "Life", Advanced, false, RareRarity),
      E("bacteria", "Bacteria", Advanced, false, Uncommon),
      E("plant", "Plant", Advanced, false, Uncommon),
      E("human", "Human", Advanced, false, RareRarity),
      E("time", "Time", Advanced, false, Legendary),
      E("hydrogen", "Hydrogen", Scientific, false, Uncommon),
      E("helium", "Helium", Scientific, false, Uncommon),
      E("carbon", "Carbon", Scientific, false, Uncommon),
      E("oxygen", "Oxygen", Scientific, false, Uncommon),
      E("gold", "Gold", Scientific, false, RareRarity),
      E("plastic", "Plastic", Advanced, false, Uncommon),
      E("glass", "Glass", Compound, false, Common),
      E("electricity", "Electricity", Advanced, false, RareRarity),
      E("computer", "Computer", Advanced, false, RareRarity),
      E("internet", "Internet", Advanced, false, Legendary),
      E("magic", "Magic", Rare, false, Legendary),
      E("dragon", "Dragon", Rare, false, Legendary),
      E("love", "Love", Rare, false, RareRarity),
      E("knowledge", "Knowledge", Rare, false, RareRarity),
      E("universe", "Universe", Rare, false, Legendary) ]
  }

  /** The main recipe table. */
  function Combinations(): seq<Combination>
  {
    [ C("water", "fire", "steam", Easy),
      C("earth", "fire", "lava", Easy),
      C("earth", "water", "mud", Easy),
      C("fire", "air", "energy", Easy),
      C("fire", "earth", "smoke", Easy),
      C("air", "earth", "dust", Easy),
      C("fire", "stone", "metal", Medium),
      C("earth", "life", "wood", Medium),
      C("earth", "energy", "stone", Medium),
      C("water", "energy", "salt", Medium),
      C("water", "plant", "alcohol", Medium),
      C("energy", "water", "life", Hard),
      C("life", "water", "bacteria", Hard),
      C("life", "earth", "plant", Hard),
      C("life", "energy", "human", Hard),
      C("energy", "energy", "time", Hard),
      C("steam", "earth", "mud", Medium),
      C("lava", "water", "stone", Medium),
      C("life", "mud", "bacteria", Medium),
      C("energy", "air", "hydrogen", Hard),
      C("energy", "hydrogen", "helium", Hard),
      C("hydrogen", "oxygen", "water", Medium),
      C("stone", "fire", "glass", Medium),
      C("oil", "energy", "plastic", Hard),
      C("metal", "energy", "electricity", Hard),
      C("electricity", "metal", "computer", VeryHard),
      C("computer", "computer", "internet", VeryHard),
      C("fire", "knowledge", "dragon", VeryHard),
      C("energy", "knowledge", "magic", VeryHard),
      C("human", "human", "love", VeryHard),
      C("time", "space", "universe", VeryHard) ]
  }

  /** The additional recipe table, appended after the main one. */
  function ExtraCombinations(): seq<Combination>
  {
    [ C("fire", "wood", "ash", Easy),
      C("water", "electricity", "hydrogen", Medium),
      C("air", "electricity", "ozone", Medium),
      C("carbon", "oxygen", "carbon dioxide", Medium),
      C("hydrogen", "carbon", "methane", Medium),
      C("carbon", "carbon", "diamond", Hard),
      C("lava", "pressure", "diamond", Hard),
      C("carbon", "energy", "coal", Medium),
      C("coal", "pressure", "diamond", Hard),
      C("energy", "glass", "light", Medium),
      C("light", "water", "rainbow", Medium),
      C("light", "darkness", "shadow", Easy),
      C("water", "air", "cloud", Easy),
      C("cloud", "electricity", "lightning", Medium),
      C("cloud", "cold", "snow", Medium),
      C("lightning", "sand", "glass", Hard),
      C("fire", "hydrogen", "star", Hard),
      C("star", "time", "supernova", VeryHard),
      C("star", "space", "solar system", VeryHard),
      C("earth", "space", "planet", Hard),
      C("computer", "knowledge", "artificial intelligence", VeryHard),
      C("metal", "electricity", "robot", Hard),
      C("robot", "artificial intelligence", "android", VeryHard),
      C("human", "knowledge", "philosophy", Hard),
      C("love", "time", "eternity", VeryHard),
      C("magic", "science", "alchemy", VeryHard) ]
  }

  /** `getAllCombinations`: the main table followed by the extra one. */
  function GetAllCombinations(): (r: seq<Combination>)
    ensures |r| == |Combinations()| + |ExtraCombinations()|
    ensures r[..|Combinations()|] == Combinations() && r[|Combinations()|..] == ExtraCombinations()
  {
    Combinations() + ExtraCombinations()
  }

  function Ids(es: seq<Element>): (r: seq<Id>)
    ensures |r| == |es| && forall i :: 0 <= i < |es| ==> r[i] == es[i].id
  {
    seq(|es|, i requires 0 <= i < |es| => es[i].id)
  }

  /** No two elements of the list share an id. */
  predicate DistinctIds(es: seq<Element>)
  {
    forall i, j :: 0 <= i < j < |es| ==> es[i].id != es[j].id
  }

  lemma InitialIdsRowsA(i: nat)
    requires i < 6
    ensures forall j :: i < j < |InitialElements()| ==> InitialElements()[j].id != InitialElements()[i].id
  {
  }

  lemma InitialIdsRowsB(i: nat)
    requires 6 <= i < 12
    ensures forall j :: i < j < |InitialElements()| ==> InitialElements()[j].id != InitialElements()[i].id
  {
  }

  lemma InitialIdsRowsC(i: nat)
    requires 12 <= i < 22
    ensures forall j :: i < j < |InitialElements()| ==> InitialElements()[j].id != InitialElements()[i].id
  {
  }

  lemma InitialIdsRowsD(i: nat)
    requires 22 <= i < 35
    ensures forall j :: i < j < |InitialElements()| ==> InitialElements()[j].id != InitialElements()[i].id
  {
  }

  /** The ids of the initial element list are pairwise distinct. */
  lemma InitialIdsDistinct()
    ensures |InitialElements()| == 35
    ensures DistinctIds(InitialElements())
  {
    forall i | 0 <= i < |InitialElements()|
      ensures forall j :: i < j < |InitialElements()| ==> InitialElements()[j].id != InitialElements()[i].id
    {
      if i < 6 {
        InitialIdsRowsA(i);
      } else if i < 12 {
        InitialIdsRowsB(i);
      } else if i < 22 {
        InitialIdsRowsC(i);
      } else {
        InitialIdsRowsD(i);
      }
    }
  }

  /** Exactly the four basic elements, air, water, fire and earth, start discovered; they are the first four entries. */
  lemma InitialDiscoveredAreTheBasics()
    ensures InitialElements()[0].id == "air" && InitialElements()[1].id == "water"
    ensures InitialElements()[2].id == "fire" && InitialElements()[3].id == "earth"
    ensures forall i :: 0 <= i < |InitialElements()| ==> (InitialElements()[i].discovered <==> i < 4)
  {
  }

  /** The basic category holds exactly those four. */
  lemma InitialBasicsAreTheFirstFour()
    ensures forall i :: 0 <= i < |InitialElements()| ==> (InitialElements()[i].category == Basic <==> i < 4)
  {
  }

  /** `getElementsByCategory` (catalog version): exactly the elements with that category, in their original order. */
  function GetElementsByCategory(es: seq<Element>, c: Category): (r: seq<Element>)
    ensures forall e :: e in r <==> e in es && e.category == c
    ensures IsSubsequence(r, es)
    ensures forall e {:trigger multiset(r)[e]} :: multiset(r)[e] == if e.category == c then multiset(es)[e] else 0
  {
    Filter(es, (e: Element) => e.category == c)
  }

  /** Appending one element extends its category's list by that element and leaves the others. */
  lemma GetElementsByCategorySnoc(es: seq<Element>, e: Element, c: Category)
    ensures GetElementsByCategory(es + [e], c) == GetElementsByCategory(es, c) + (if e.category == c then [e] else [])
  {
    FilterAppend(es, [e], (e: Element) => e.category == c);
    FilterUnfold([e], (e: Element) => e.category == c);
  }

  /** A category none of the elements has selects nothing. */
  lemma GetElementsByCategoryNone(es: seq<Element>, c: Category)
    requires forall i :: 0 <= i < |es| ==> es[i].category != c
    ensures GetElementsByCategory(es, c) == []
  {
    FilterKeepsNone(es, (e: Element) => e.category == c);
  }

  /** `getElementsByRarity`: exactly the elements with that rarity tag (possibly none), in their original order. */
  function GetElementsByRarity(es: seq<Element>, rarity: Option<Rarity>): (r: seq<Element>)
    ensures forall e :: e in r <==> e in es && e.rarity == rarity
    ensures IsSubsequence(r, es)
    ensures forall e {:trigger multiset(r)[e]} :: multiset(r)[e] == if e.rarity == rarity then multiset(es)[e] else 0
  {
    Filter(es, (e: Element) => e.rarity == rarity)
  }

  /** `getAllCategories`: each of the five categories once. */
  function GetAllCategories(): (r: seq<Category>)
    ensures |r| == 5
    ensures Basic in r && Compound in r && Advanced in r && Rare in r && Scientific in r
    ensures forall i, j :: 0 <= i < j < |r| ==> r[i] != r[j]
  {
    [Basic, Compound, Advanced, Rare, Scientific]
  }

  /** `getAllRarities`: each of the four rarity tags once. */
  function GetAllRarities(): (r: seq<Rarity>)
    ensures |r| == 4
    ensures Common in r && Uncommon in r && RareRarity in r && Legendary in r
    ensures forall i, j :: 0 <= i < j < |r| ==> r[i] != r[j]
  {
    [Common, Uncommon, RareRarity, Legendary]
  }
}
