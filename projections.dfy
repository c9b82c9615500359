/** Read-only views derived from the engine's state on every render: which
    stages are unlocked, which segments of the level bar are lit, and which
    caption band the gauge is in. None of them is stored. */
module Projections {
  import opened Catalog
  import opened Progression

  /** Stage `idx` (0-based) is unlocked when `level > idx`. */
  predicate StageUnlocked(level: int, idx: int)
  {
    level > idx
  }

  /** The unlock flag of every stage, in catalog order. */
  function UnlockedStages(level: int): (r: seq<bool>)
    ensures |r| == |Stages|
    ensures forall idx :: 0 <= idx < |r| ==> (r[idx] <==> level > idx)
  {
    seq(|Stages|, idx => StageUnlocked(level, idx))
  }

  /** Segment `i` of the level bar (i in 1..3) is lit when `level >= i`. */
  predicate SegmentLit(level: int, i: int)
  {
    level >= i
  }

  /** The three segments of the level bar, for i = 1, 2, 3. */
  function LevelBar(level: int): (r: seq<bool>)
    ensures |r| == 3
    ensures forall k :: 0 <= k < |r| ==> (r[k] <==> level >= k + 1)
  {
    seq(3, k => SegmentLit(level, k + 1))
  }

  /** The number of `true` flags. */
  function CountTrue(s: seq<bool>): (r: nat)
    ensures r <= |s|
  {
    if s == [] then 0 else CountTrue(s[..|s| - 1]) + (if s[|s| - 1] then 1 else 0)
  }

  /** Of `n` positions checked with `level > idx`, exactly `level` are true,
      clamped to [0, n]. */
  lemma {:induction false} CountBelow(level: int, n: nat)
    ensures CountTrue(seq(n, idx => level > idx)) == if level <= 0 then 0 else Min(level, n)
  {
    if n > 0 {
      var s := seq(n, idx => level > idx);
      assert s[..n - 1] == seq(n - 1, idx => level > idx);
      CountBelow(level, n - 1);
    }
  }

  /** With the level in {1, 2, 3}, exactly `level` of the three stages are
      unlocked, the first stage always is, and the stages unlocked form a
      prefix of the path. */
  lemma UnlockedCountIsLevel(level: int)
    requires 1 <= level <= 3
    ensures CountTrue(UnlockedStages(level)) == level
    ensures UnlockedStages(level)[0]
    ensures forall i, j :: 0 <= i <= j < |Stages| && UnlockedStages(level)[j] ==> UnlockedStages(level)[i]
  {
    CountBelow(level, |Stages|);
    assert UnlockedStages(level) == seq(|Stages|, idx => level > idx);
  }

  /** Raising the level never locks a stage again. */
  lemma UnlockMonotone(level: int, level': int, idx: int)
    requires level <= level'
    ensures StageUnlocked(level, idx) ==> StageUnlocked(level', idx)
  {
  }

  /** The level bar and the stage list agree: segment i + 1 is lit exactly
      when stage i is unlocked, so exactly `level` segments are lit. */
  lemma LevelBarMatchesStages(level: int)
    requires 1 <= level <= 3
    ensures LevelBar(level) == UnlockedStages(level)
    ensures CountTrue(LevelBar(level)) == level
  {
    UnlockedCountIsLevel(level);
  }

  /** The three captions under the mirror. */
  datatype Band = Obscured | Emerging | Radiant

  function BandRank(b: Band): nat
  {
    match b
    case Obscured => 0
    case Emerging => 1
    case Radiant => 2
  }

  /** `< 30` is obscured ("la rouille de l'oubli"), `< 70` emerging ("la lumière
      commence à poindre"), otherwise radiant ("le miroir reflète la Présence"). */
  function GaugeBand(g: int): (r: Band)
    ensures r == Obscured <==> g < 30
    ensures r == Emerging <==> 30 <= g < 70
    ensures r == Radiant <==> 70 <= g
  {
    if g < 30 then Obscured else if g < 70 then Emerging else Radiant
  }

  /** The heart icon pulses once the gauge is past 50: never under the
      obscured caption, and always under the radiant one. */
  predicate HeartGlows(g: int)
    ensures HeartGlows(g) ==> GaugeBand(g) != Obscured
    ensures GaugeBand(g) == Radiant ==> HeartGlows(g)
  {
    g > 50
  }

  /** A fuller gauge never shows an earlier caption and never stops the
      heart's pulse. */
  lemma GaugeViewsMonotone(g: int, g': int)
    requires g <= g'
    ensures BandRank(GaugeBand(g)) <= BandRank(GaugeBand(g'))
    ensures HeartGlows(g) ==> HeartGlows(g')
  {
  }

  /** Since the gauge moves by 5 per effort, the caption leaves "obscured"
      at the 6th recorded effort and turns radiant at the 14th. */
  lemma BandAfterEfforts(n: nat)
    ensures GaugeBand(GaugeAfter(n)) == Obscured <==> n < 6
    ensures GaugeBand(GaugeAfter(n)) == Radiant <==> n >= 14
  {
  }
}
