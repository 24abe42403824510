/**
  The achievement system of src/utils/achievementSystem.ts: the catalogue of
  achievements, the check that unlocks those whose condition a game state
  meets, and the processing step that collects rewards and records the last
  unlocked achievement.

  An achievement's condition is a closure over the game state in the source;
  here it is a `Condition` value and `Holds` is its meaning.
 */
module Achievements {
  import opened Wrappers
  import opened Seqs
  import opened ElementData
  import opened GameTypes

  datatype Condition =
    | HasDiscoveries
    | DiscoveredAtLeast(n: nat)
    | AllOfCategoryDiscovered(category: Category)
    | AnyOfCategoryDiscovered(category: Category)
    | AnyOfRarityDiscovered(rarity: Rarity)
    | ElementDiscovered(id: Id)
    | StreakAtLeast(streak: int)
    | EveryCategoryDiscovered

  datatype RewardKind = ElementReward | HintReward | CategoryReward

  datatype Reward = Reward(kind: RewardKind, value: string)

  datatype Achievement = Achievement(id: string, unlocked: bool, condition: Condition, reward: Option<Reward>)

  /**
    The `AchievementState` record. `processAchievements` assigns its
    `lastUnlocked` field in place, so it is an object.
   */
  class AchievementState {
    var achievements: seq<Achievement>
    var lastUnlocked: Option<string>

    constructor (achievements: seq<Achievement>, lastUnlocked: Option<string>)
      ensures this.achievements == achievements && this.lastUnlocked == lastUnlocked
    {
      this.achievements := achievements;
      this.lastUnlocked := lastUnlocked;
    }
  }

  /** `elements.some(e => e.category === c && e.discovered)`. */
  predicate AnyDiscoveredOfCategory(es: seq<Element>, c: Category)
  {
    exists i :: 0 <= i < |es| && es[i].category == c && es[i].discovered
  }

  /** What a condition means for a game state. */
  predicate Holds(c: Condition, gs: GameState)
  {
    var es := gs.elements;
    match c
    case HasDiscoveries => |gs.discoveries| > 0
    case DiscoveredAtLeast(n) => DiscoveredCount(es) >= n
    case AllOfCategoryDiscovered(cat) => forall i :: 0 <= i < |es| && es[i].category == cat ==> es[i].discovered
    case AnyOfCategoryDiscovered(cat) => AnyDiscoveredOfCategory(es, cat)
    case AnyOfRarityDiscovered(r) => exists i :: 0 <= i < |es| && es[i].rarity == Some(r) && es[i].discovered
    case ElementDiscovered(id) => exists i :: 0 <= i < |es| && es[i].id == id && es[i].discovered
    case StreakAtLeast(n) => gs.successfulCombosInARow >= n
    case EveryCategoryDiscovered =>
      var cats := GetAllCategories();
      forall k :: 0 <= k < |cats| ==> AnyDiscoveredOfCategory(es, cats[k])
  }

  function Locked(id: string, c: Condition): Achievement { Achievement(id, false, c, None) }

  /** The eighteen achievements of a new game (`initializeAchievements`). */
  function InitializeAchievements(): (r: seq<Achievement>)
    ensures |r| == 18
    ensures forall i :: 0 <= i < |r| ==> !r[i].unlocked
  {
    [ Locked("first_discovery", HasDiscoveries),
      Locked("five_discoveries", DiscoveredAtLeast(5)),
      Locked("ten_discoveries", DiscoveredAtLeast(10)),
      Locked("twenty_discoveries", DiscoveredAtLeast(20)),
      Locked("all_basic", AllOfCategoryDiscovered(Basic)),
      Locked("first_compound", AnyOfCategoryDiscovered(Compound)),
      Locked("first_advanced", AnyOfCategoryDiscovered(Advanced)),
      Achievement("first_scientific", false, AnyOfCategoryDiscovered(Scientific), Some(Reward(CategoryReward, "scientific"))),
      Achievement("first_rare", false, AnyOfCategoryDiscovered(Rare), Some(Reward(CategoryReward, "rare"))),
      Locked("first_legendary", AnyOfRarityDiscovered(Legendary)),
      Locked("create_life", ElementDiscovered("life")),
      Locked("create_human", ElementDiscovered("human")),
      Locked("create_time", ElementDiscovered("time")),
      Locked("dragon_tamer", ElementDiscovered("dragon")),
      Locked("internet_explorer", ElementDiscovered("internet")),
      Locked("universe_creator", ElementDiscovered("universe")),
      Locked("combo_master", StreakAtLeast(3)),
      Locked("element_collector", EveryCategoryDiscovered) ]
  }

  /** The eighteen achievement ids are pairwise distinct. */
  lemma InitialAchievementIdsDistinct()
    ensures forall i, j :: 0 <= i < j < |InitializeAchievements()| ==>
      InitializeAchievements()[i].id != InitializeAchievements()[j].id
  {
  }

  /** Only the two "first of a category" achievements for scientific and rare carry a reward, and it is a category reward. */
  lemma InitialRewards()
    ensures forall i :: 0 <= i < 18 ==>
      (InitializeAchievements()[i].reward.Some? <==> i == 7 || i == 8)
    ensures InitializeAchievements()[7].reward == Some(Reward(CategoryReward, "scientific"))
    ensures InitializeAchievements()[8].reward == Some(Reward(CategoryReward, "rare"))
  {
  }

  /** An achievement that is still locked and whose condition the state meets. */
  predicate Flips(a: Achievement, gs: GameState)
  {
    !a.unlocked && Holds(a.condition, gs)
  }

  /** The list after `checkAchievements`: each achievement unlocked if it was, or if its condition now holds. */
  function Checked(gs: GameState, achs: seq<Achievement>): (r: seq<Achievement>)
    ensures |r| == |achs|
    ensures forall i :: 0 <= i < |achs| ==>
      r[i].id == achs[i].id && r[i].condition == achs[i].condition && r[i].reward == achs[i].reward &&
      (r[i].unlocked <==> achs[i].unlocked || Holds(achs[i].condition, gs))
    ensures forall i :: 0 <= i < |achs| && achs[i].unlocked ==> r[i] == achs[i]
  {
    seq(|achs|, i requires 0 <= i < |achs| => if Flips(achs[i], gs) then achs[i].(unlocked := true) else achs[i])
  }

  /**
    The achievements `checkAchievements` reports as newly unlocked, in list
    order: exactly the unlocked copies of the locked achievements whose
    condition holds.
   */
  function NewlyUnlocked(gs: GameState, achs: seq<Achievement>): (r: seq<Achievement>)
    ensures |r| <= |achs|
    ensures forall i :: 0 <= i < |r| ==> r[i].unlocked
    decreases |achs|
  {
    if |achs| == 0 then []
    else
      var last := achs[|achs| - 1];
      NewlyUnlocked(gs, achs[..|achs| - 1]) + (if Flips(last, gs) then [last.(unlocked := true)] else [])
  }

  /** An achievement is reported newly unlocked exactly when its locked copy is in the list and its condition holds. */
  lemma {:induction false} NewlyUnlockedMembers(gs: GameState, achs: seq<Achievement>, a: Achievement)
    ensures a in NewlyUnlocked(gs, achs) <==> a.unlocked && a.(unlocked := false) in achs && Holds(a.condition, gs)
    decreases |achs|
  {
    if |achs| > 0 {
      var last := achs[|achs| - 1];
      assert achs == achs[..|achs| - 1] + [last];
      NewlyUnlockedMembers(gs, achs[..|achs| - 1], a);
    }
  }

  /** `checkAchievements`: the map over the list that also pushes each newly unlocked copy. */
  method CheckAchievements(gs: GameState, current: seq<Achievement>)
    returns (updated: seq<Achievement>, newlyUnlocked: seq<Achievement>)
    ensures updated == Checked(gs, current)
    ensures newlyUnlocked == NewlyUnlocked(gs, current)
  {
    updated, newlyUnlocked := [], [];
    var i := 0;
    while i < |current|
      invariant 0 <= i <= |current|
      invariant updated == Checked(gs, current[..i])
      invariant newlyUnlocked == NewlyUnlocked(gs, current[..i])
    {
      var a := current[i];
      assert current[..i + 1][..i] == current[..i];
      if a.unlocked {
        updated := updated + [a];
      } else if Holds(a.condition, gs) {
        newlyUnlocked := newlyUnlocked + [a.(unlocked := true)];
        updated := updated + [a.(unlocked := true)];
      } else {
        updated := updated + [a];
      }
      i := i + 1;
    }
    assert current[..i] == current;
  }

  /** Checking twice unlocks nothing more: the second check reports nothing and changes nothing. */
  lemma CheckIdempotent(gs: GameState, achs: seq<Achievement>)
    ensures Checked(gs, Checked(gs, achs)) == Checked(gs, achs)
    ensures NewlyUnlocked(gs, Checked(gs, achs)) == []
  {
    var c := Checked(gs, achs);
    forall j | 0 <= j < |c| ensures !Flips(c[j], gs) {
    }
    LastUnlockedUnchanged(gs, c, None);
  }

  /** The rewards of the given achievements that have one, in order. */
  function RewardsOf(achs: seq<Achievement>): (r: seq<Reward>)
    ensures |r| <= |achs|
    decreases |achs|
  {
    if |achs| == 0 then []
    else
      var last := achs[|achs| - 1];
      assert achs == achs[..|achs| - 1] + [last];
      RewardsOf(achs[..|achs| - 1]) + (if last.reward.Some? then [last.reward.value] else [])
  }

  /** The rewards collected are exactly those the given achievements carry. */
  lemma {:induction false} RewardsOfMembers(achs: seq<Achievement>, rw: Reward)
    ensures rw in RewardsOf(achs) <==> exists i :: 0 <= i < |achs| && achs[i].reward == Some(rw)
    decreases |achs|
  {
    if |achs| > 0 {
      var init := achs[..|achs| - 1];
      RewardsOfMembers(init, rw);
      if exists i :: 0 <= i < |achs| && achs[i].reward == Some(rw) {
        var i :| 0 <= i < |achs| && achs[i].reward == Some(rw);
        if i < |achs| - 1 {
          assert init[i] == achs[i];
        }
      }
      forall i | 0 <= i < |init| && init[i].reward == Some(rw)
        ensures achs[i].reward == Some(rw)
      {
      }
    }
  }

  /** `lastUnlocked` after processing: the id of the last newly unlocked achievement, else the previous value. */
  function LastUnlockedAfter(newlyUnlocked: seq<Achievement>, previous: Option<string>): Option<string>
  {
    if |newlyUnlocked| > 0 then Some(newlyUnlocked[|newlyUnlocked| - 1].id) else previous
  }

  /**
    The last unlocked achievement is the flipped one that stands last in the
    list: the one at index `k` when nothing after it flips.
   */
  lemma {:induction false} LastUnlockedIsLastFlipped(gs: GameState, achs: seq<Achievement>, k: nat, previous: Option<string>)
    requires k < |achs| && Flips(achs[k], gs)
    requires forall j :: k < j < |achs| ==> !Flips(achs[j], gs)
    ensures LastUnlockedAfter(NewlyUnlocked(gs, achs), previous) == Some(achs[k].id)
    decreases |achs|
  {
    if k < |achs| - 1 {
      var init := achs[..|achs| - 1];
      LastUnlockedIsLastFlipped(gs, init, k, previous);
    }
  }

  /** When nothing flips, the last unlocked achievement is left as it was. */
  lemma {:induction false} LastUnlockedUnchanged(gs: GameState, achs: seq<Achievement>, previous: Option<string>)
    requires forall j :: 0 <= j < |achs| ==> !Flips(achs[j], gs)
    ensures NewlyUnlocked(gs, achs) == []
    ensures LastUnlockedAfter(NewlyUnlocked(gs, achs), previous) == previous
    decreases |achs|
  {
    if |achs| > 0 {
      LastUnlockedUnchanged(gs, achs[..|achs| - 1], previous);
    }
  }

  /**
    `processAchievements`: checks the list, collects the rewards of the newly
    unlocked achievements and writes each one's id into the given state's
    `lastUnlocked` as it goes; returns a new state with the updated list.
   */
  method ProcessAchievements(gs: GameState, st: AchievementState)
    returns (updatedState: AchievementState, rewards: seq<Reward>)
    modifies st
    ensures fresh(updatedState)
    ensures updatedState.achievements == Checked(gs, old(st.achievements))
    ensures updatedState.lastUnlocked == LastUnlockedAfter(NewlyUnlocked(gs, old(st.achievements)), old(st.lastUnlocked))
    ensures st.achievements == old(st.achievements)
    ensures st.lastUnlocked == updatedState.lastUnlocked
    ensures rewards == RewardsOf(NewlyUnlocked(gs, old(st.achievements)))
  {
    var updated, newly := CheckAchievements(gs, st.achievements);
    rewards := [];
    var i := 0;
    assert newly[..0] == [];
    while i < |newly|
      invariant 0 <= i <= |newly|
      invariant rewards == RewardsOf(newly[..i])
      invariant st.achievements == old(st.achievements)
      invariant st.lastUnlocked == LastUnlockedAfter(newly[..i], old(st.lastUnlocked))
    {
      var a := newly[i];
      ghost var prefix := newly[..i + 1];
      assert prefix[..i] == newly[..i] && prefix[i] == a;
      assert RewardsOf(prefix) == RewardsOf(newly[..i]) + (if a.reward.Some? then [a.reward.value] else []);
      if a.reward.Some? {
        rewards := rewards + [a.reward.value];
      }
      st.lastUnlocked := Some(a.id);
      i := i + 1;
    }
    assert newly[..i] == newly;
    var last := if |newly| > 0 then Some(newly[|newly| - 1].id) else st.lastUnlocked;
    updatedState := new AchievementState(updated, last);
  }

  /** Checking a list in two parts reports the newly unlocked achievements of both parts, in order. */
  lemma {:induction false} NewlyUnlockedAppend(gs: GameState, a: seq<Achievement>, b: seq<Achievement>)
    ensures NewlyUnlocked(gs, a + b) == NewlyUnlocked(gs, a) + NewlyUnlocked(gs, b)
    decreases |b|
  {
    if |b| == 0 {
      assert a + b == a;
    } else {
      var init := b[..|b| - 1];
      assert (a + b)[..|a + b| - 1] == a + init;
      NewlyUnlockedAppend(gs, a, init);
    }
  }

  /** `achievements.filter(a => a.unlocked)`. */
  function GetUnlockedAchievements(achs: seq<Achievement>): (r: seq<Achievement>)
    ensures forall a :: a in r <==> a in achs && a.unlocked
    ensures IsSubsequence(r, achs)
    ensures forall a {:trigger multiset(r)[a]} :: multiset(r)[a] == if a.unlocked then multiset(achs)[a] else 0
  {
    Filter(achs, (a: Achievement) => a.unlocked)
  }

  /** `achievements.filter(a => !a.unlocked)`. */
  function GetLockedAchievements(achs: seq<Achievement>): (r: seq<Achievement>)
    ensures forall a :: a in r <==> a in achs && !a.unlocked
    ensures IsSubsequence(r, achs)
    ensures forall a {:trigger multiset(r)[a]} :: multiset(r)[a] == if !a.unlocked then multiset(achs)[a] else 0
  {
    Filter(achs, (a: Achievement) => !a.unlocked)
  }

  /** The unlocked and the locked achievements partition the list. */
  lemma UnlockedLockedPartition(achs: seq<Achievement>)
    ensures multiset(GetUnlockedAchievements(achs)) + multiset(GetLockedAchievements(achs)) == multiset(achs)
    ensures |GetUnlockedAchievements(achs)| + |GetLockedAchievements(achs)| == |achs|
  {
    var u, l := GetUnlockedAchievements(achs), GetLockedAchievements(achs);
    assert multiset(u) + multiset(l) == multiset(achs) by {
      forall a ensures (multiset(u) + multiset(l))[a] == multiset(achs)[a] {
      }
    }
    assert |multiset(u) + multiset(l)| == |multiset(achs)|;
  }

  /** The result of `getAchievementProgress`; the percentage is `None` where the source computes NaN. */
  datatype Progress = Progress(total: nat, unlocked: nat, percentage: Option<int>)

  /** `getAchievementProgress`: counts, and the unlocked share as a rounded percentage. */
  function GetAchievementProgress(achs: seq<Achievement>): (p: Progress)
    ensures p.total == |achs| && p.unlocked == |GetUnlockedAchievements(achs)| && p.unlocked <= p.total
    ensures p.percentage.Some? <==> |achs| > 0
    ensures p.percentage.Some? ==> 0 <= p.percentage.value <= 100
    ensures |achs| > 0 && p.unlocked == p.total ==> p.percentage == Some(100)
    ensures |achs| > 0 && p.unlocked == 0 ==> p.percentage == Some(0)
    ensures |achs| > 0 ==> p.percentage == Some(RoundPercent(p.unlocked, p.total))
  {
    var unlocked := |GetUnlockedAchievements(achs)|;
    UnlockedLockedPartition(achs);
    if |achs| == 0 then Progress(0, unlocked, None)
    else
      RoundPercentBounds(unlocked, |achs|);
      RoundPercentWhole(|achs|);
      RoundPercentNone(|achs|);
      Progress(|achs|, unlocked, Some(RoundPercent(unlocked, |achs|)))
  }
}
