/**
  The engine's state records (the `GameState` and `Discovery` interfaces of
  src/utils/gameLogic.ts) and the list and dictionary updates that several
  operations share.
 */
module GameTypes {
  import opened Wrappers
  import opened Seqs
  import opened ElementData

  /**
    The `combinationCounts` dictionary. `combineElements` increments it in place,
    so it is an object: every game state copied with a spread shares it.
   */
  class CountTable {
    var counts: map<Id, int>

    constructor (m: map<Id, int>)
      ensures counts == m
    {
      counts := m;
    }
  }

  /** A discovery record; `elements` is the sorted input pair, or the power-up's marker pair. */
  datatype Discovery = Discovery(id: string, result: Id, timestamp: int, elements: (string, string))

  /**
    The game state. `comboMultiplierTenths` is the combo multiplier times ten
    (1.0 is 10, the cap 3.0 is 30).
   */
  datatype GameState = GameState(
    elements: seq<Element>,
    discoveries: seq<Discovery>,
    combiningElements: (Option<Id>, Option<Id>),
    level: int,
    score: int,
    successfulCombosInARow: int,
    lastCombinationSuccess: Option<bool>,
    viewedElementDetails: Option<Id>,
    combinationCounts: CountTable,
    favorites: seq<Id>,
    currentComboChain: int,
    maxComboChain: int,
    elementPowers: map<Id, int>,
    comboMultiplierTenths: int,
    totalPowerGained: int)

  /** The state of a new game (`defaultGameState`), given the empty count table it owns. */
  function FreshGameState(counts: CountTable): (gs: GameState)
    ensures gs.elements == InitialElements() && gs.discoveries == []
    ensures gs.combiningElements == (None, None) && gs.level == 1 && gs.score == 0
    ensures gs.comboMultiplierTenths == 10 && gs.totalPowerGained == 0 && gs.elementPowers == map[]
  {
    GameState(InitialElements(), [], (None, None), 1, 0, 0, None, None, counts, [], 0, 0, map[], 10, 0)
  }

  /** `elements.filter(e => e.discovered)`. */
  function Discovered(es: seq<Element>): (r: seq<Element>)
    ensures forall e :: e in r <==> e in es && e.discovered
    ensures IsSubsequence(r, es)
    ensures forall e {:trigger multiset(r)[e]} :: multiset(r)[e] == if e.discovered then multiset(es)[e] else 0
  {
    Filter(es, (e: Element) => e.discovered)
  }

  function DiscoveredCount(es: seq<Element>): (n: nat)
    ensures n <= |es|
  {
    |Discovered(es)|
  }

  /** Head-and-tail form of the discovered count, for proofs by induction over the list. */
  lemma DiscoveredCountUnfold(es: seq<Element>)
    requires |es| > 0
    ensures DiscoveredCount(es) == (if es[0].discovered then 1 else 0) + DiscoveredCount(es[1..])
  {
  }

  /** Head-and-tail form of the discovered elements. */
  lemma DiscoveredUnfold(es: seq<Element>)
    requires |es| > 0
    ensures Discovered(es) == (if es[0].discovered then [es[0]] else []) + Discovered(es[1..])
  {
    FilterUnfold(es, (e: Element) => e.discovered);
  }

  /** `elements.map(e => e.id === id ? { ...e, discovered: true } : e)`. */
  function MarkDiscovered(es: seq<Element>, id: Id): (r: seq<Element>)
    ensures |r| == |es|
    ensures forall i :: 0 <= i < |es| ==>
      r[i].id == es[i].id && r[i].category == es[i].category && r[i].rarity == es[i].rarity &&
      r[i].name == es[i].name && (r[i].discovered <==> es[i].discovered || es[i].id == id)
  {
    seq(|es|, i requires 0 <= i < |es| => if es[i].id == id then es[i].(discovered := true) else es[i])
  }

  /** The elements with this id that are not yet discovered. */
  function UndiscoveredWithId(es: seq<Element>, id: Id): (r: seq<Element>)
    ensures forall e :: e in r <==> e in es && e.id == id && !e.discovered
    ensures IsSubsequence(r, es)
    ensures forall e {:trigger multiset(r)[e]} :: multiset(r)[e] == if e.id == id && !e.discovered then multiset(es)[e] else 0
  {
    Filter(es, (e: Element) => e.id == id && !e.discovered)
  }

  /** Marking an id discovered adds to the discovered count one per undiscovered element with that id. */
  lemma {:induction false} MarkDiscoveredCount(es: seq<Element>, id: Id)
    ensures DiscoveredCount(MarkDiscovered(es, id)) == DiscoveredCount(es) + |UndiscoveredWithId(es, id)|
    decreases |es|
  {
    if |es| > 0 {
      var m := MarkDiscovered(es, id);
      assert m[1..] == MarkDiscovered(es[1..], id);
      MarkDiscoveredCount(es[1..], id);
      DiscoveredCountUnfold(es);
      DiscoveredCountUnfold(m);
      FilterUnfold(es, (e: Element) => e.id == id && !e.discovered);
    }
  }

  /** With distinct ids, at most one element carries a given id, so at most one is newly marked. */
  lemma {:induction false} UndiscoveredWithIdDistinct(es: seq<Element>, id: Id)
    requires DistinctIds(es)
    ensures |UndiscoveredWithId(es, id)| == if exists i :: 0 <= i < |es| && es[i].id == id && !es[i].discovered then 1 else 0
    decreases |es|
  {
    if |es| > 0 {
      FilterUnfold(es, (e: Element) => e.id == id && !e.discovered);
      assert DistinctIds(es[1..]) by {
        forall i, j | 0 <= i < j < |es[1..]| ensures es[1..][i].id != es[1..][j].id {
          assert es[1..][i] == es[i + 1] && es[1..][j] == es[j + 1];
        }
      }
      UndiscoveredWithIdDistinct(es[1..], id);
      if es[0].id == id {
        forall i | 0 <= i < |es[1..]|
          ensures !(es[1..][i].id == id && !es[1..][i].discovered)
        {
          assert es[1..][i] == es[i + 1];
        }
      } else {
        forall i | 0 <= i < |es| && es[i].id == id && !es[i].discovered
          ensures 0 <= i - 1 < |es[1..]| && es[1..][i - 1].id == id && !es[1..][i - 1].discovered
        {
          assert es[1..][i - 1] == es[i];
        }
        forall i | 0 <= i < |es[1..]| && es[1..][i].id == id && !es[1..][i].discovered
          ensures es[i + 1].id == id && !es[i + 1].discovered
        {
          assert es[1..][i] == es[i + 1];
        }
      }
    }
  }

  /** `(m[k] || 0)`: a dictionary read that defaults to zero. */
  function Get(m: map<Id, int>, k: Id): int
  {
    if k in m then m[k] else 0
  }

  /** `ids.forEach(id => { m[id] = (m[id] || 0) + amount })`, as a value. */
  function AddEach(m: map<Id, int>, ids: seq<Id>, amount: int): map<Id, int>
    decreases |ids|
  {
    if |ids| == 0 then m
    else
      var before := AddEach(m, ids[..|ids| - 1], amount);
      before[ids[|ids| - 1] := Get(before, ids[|ids| - 1]) + amount]
  }

  /** Adding for one more id is one more dictionary update. */
  lemma AddEachSnoc(m: map<Id, int>, ids: seq<Id>, x: Id, amount: int)
    ensures AddEach(m, ids + [x], amount) == AddEach(m, ids, amount)[x := Get(AddEach(m, ids, amount), x) + amount]
  {
    assert (ids + [x])[..|ids|] == ids;
  }

  /**
    `ids.forEach(id => { powers[id] = (powers[id] || 0) + amount })` on a copy
    of a power dictionary: the loop of a combination's power gain and of the
    power surge.
   */
  method AddPowers(powers: map<Id, int>, ids: seq<Id>, amount: int) returns (r: map<Id, int>)
    ensures r == AddEach(powers, ids, amount)
  {
    r := powers;
    for i := 0 to |ids|
      invariant r == AddEach(powers, ids[..i], amount)
    {
      assert ids[..i + 1] == ids[..i] + [ids[i]];
      AddEachSnoc(powers, ids[..i], ids[i], amount);
      r := r[ids[i] := Get(r, ids[i]) + amount];
    }
    assert ids[..|ids|] == ids;
  }

  /** Each key gains `amount` once per occurrence in `ids`; keys not in `ids` keep their value. */
  lemma {:induction false} AddEachPointwise(m: map<Id, int>, ids: seq<Id>, amount: int, k: Id)
    ensures Get(AddEach(m, ids, amount), k) == Get(m, k) + amount * multiset(ids)[k]
    decreases |ids|
  {
    if |ids| > 0 {
      var init, last := ids[..|ids| - 1], ids[|ids| - 1];
      assert ids == init + [last];
      AddEachPointwise(m, init, amount, k);
      CountSnoc(init, last, k);
      if k == last {
        MulSucc(amount, multiset(init)[k]);
      }
    }
  }

  /** Appending an id adds one to its count and leaves the other counts. */
  lemma CountSnoc(ids: seq<Id>, x: Id, k: Id)
    ensures multiset(ids + [x])[k] == multiset(ids)[k] + (if k == x then 1 else 0)
  {
    assert multiset(ids + [x]) == multiset(ids) + multiset{x};
  }

  lemma MulSucc(a: int, c: int)
    ensures a * (c + 1) == a * c + a
  {
  }

  /** The keys afterwards are the keys before and the ids. */
  lemma {:induction false} AddEachKeys(m: map<Id, int>, ids: seq<Id>, amount: int, k: Id)
    ensures k in AddEach(m, ids, amount) <==> k in m || k in ids
    decreases |ids|
  {
    if |ids| > 0 {
      var init := ids[..|ids| - 1];
      assert ids == init + [ids[|ids| - 1]];
      AddEachKeys(m, init, amount, k);
    }
  }

  /** The order of the two ids does not matter. */
  lemma AddEachSwap(m: map<Id, int>, a: Id, b: Id, amount: int)
    ensures AddEach(m, [a, b], amount) == AddEach(m, [b, a], amount)
  {
    AddEachPair(m, a, b, amount);
    AddEachPair(m, b, a, amount);
    var l, r := AddEach(m, [a, b], amount), AddEach(m, [b, a], amount);
    forall k ensures k in l <==> k in r {
      AddEachKeys(m, [a, b], amount, k);
      AddEachKeys(m, [b, a], amount, k);
    }
    forall k | k in l ensures l[k] == r[k] {
      assert Get(l, k) == Get(r, k);
    }
  }

  /** The two-id case used by a combination: a self-pair such as energy+energy adds twice. */
  lemma AddEachPair(m: map<Id, int>, a: Id, b: Id, amount: int)
    ensures forall k ::
              Get(AddEach(m, [a, b], amount), k) ==
              Get(m, k) + (if k == a then amount else 0) + (if k == b then amount else 0)
  {
    forall k
      ensures Get(AddEach(m, [a, b], amount), k) ==
        Get(m, k) + (if k == a then amount else 0) + (if k == b then amount else 0)
    {
      AddEachPointwise(m, [a, b], amount, k);
      assert multiset([a, b])[k] == (if k == a then 1 else 0) + (if k == b then 1 else 0);
    }
  }

  function Max(a: int, b: int): int { if a >= b then a else b }
  function Min(a: int, b: int): int { if a <= b then a else b }

  /**
    `Math.round(part / whole * 100)`: the percentage rounded half up, exact on
    the rationals.
   */
  function RoundPercent(part: nat, whole: nat): (r: int)
    requires whole > 0
    ensures 2 * whole * r - whole <= 200 * part < 2 * whole * r + whole
  {
    var n, d := 200 * part + whole, 2 * whole;
    assert n == d * (n / d) + n % d && 0 <= n % d < d;
    n / d
  }

  /** Below a multiple of the divisor, the quotient stays below the multiplier. */
  lemma DivBelow(n: int, d: int, k: int)
    requires d > 0 && 0 <= n < d * k
    ensures n / d < k
  {
    assert n == d * (n / d) + n % d;
    assert d * (n / d) < d * k;
    assert d * (k - n / d) > 0;
  }

  /** A share of a whole rounds to a percentage between 0 and 100. */
  lemma RoundPercentBounds(part: nat, whole: nat)
    requires whole > 0 && part <= whole
    ensures 0 <= RoundPercent(part, whole) <= 100
  {
    DivBelow(200 * part + whole, 2 * whole, 101);
  }

  /** The quotient is the one multiplier that leaves a remainder below the divisor. */
  lemma DivUnique(n: int, d: int, q: int, rem: int)
    requires d > 0 && 0 <= rem < d && n == d * q + rem
    ensures n / d == q
  {
    assert n == d * (n / d) + n % d;
    assert d * (q - n / d) == n % d - rem;
    SmallMultiple(d, q - n / d);
  }

  /** The only multiple of `d` strictly between `-d` and `d` is zero. */
  lemma SmallMultiple(d: int, t: int)
    requires d > 0 && -d < d * t < d
    ensures t == 0
  {
  }

  /** All of a whole is 100 percent. */
  lemma RoundPercentWhole(whole: nat)
    requires whole > 0
    ensures RoundPercent(whole, whole) == 100
  {
    DivUnique(200 * whole + whole, 2 * whole, 100, whole);
  }

  /** None of a whole is 0 percent. */
  lemma RoundPercentNone(whole: nat)
    requires whole > 0
    ensures RoundPercent(0, whole) == 0
  {
    DivUnique(whole, 2 * whole, 0, whole);
  }

  /** Division by a positive number is monotone. */
  lemma DivMonotone(a: int, b: int, d: int)
    requires d > 0 && 0 <= a <= b
    ensures a / d <= b / d
  {
    assert b == d * (b / d) + b % d;
    assert d * (b / d + 1) == d * (b / d) + d;
    DivBelow(a, d, b / d + 1);
  }

  /** A larger share never rounds to a smaller percentage. */
  lemma RoundPercentMonotone(p1: nat, p2: nat, whole: nat)
    requires whole > 0 && p1 <= p2
    ensures RoundPercent(p1, whole) <= RoundPercent(p2, whole)
  {
    DivMonotone(200 * p1 + whole, 200 * p2 + whole, 2 * whole);
  }
}
