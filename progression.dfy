/** The pure rules of the progression engine: how one recorded effort moves
    the gauge ("mirror polishing") and the level, what a journal entry holds,
    and the reference definitions that the engine's state must agree with. */
module Progression {
  import opened Catalog

  /** A journal entry; `id` and `date` come from the clock and are supplied
      by the caller. `taskTitle` and `points` snapshot the task. */
  datatype Entry = Entry(id: int, taskTitle: string, content: string, date: string, points: int)

  const GaugeStep := 5
  const GaugeMax := 100
  /** A level-1 traveller whose total goes strictly past this reaches level 2. */
  const Level2Threshold := 100
  /** A level-2 traveller whose total goes strictly past this reaches level 3. */
  const Level3Threshold := 300

  function Min(a: int, b: int): int
  {
    if a <= b then a else b
  }

  /** `Math.min(100, prev + 5)`: one step of the gauge. From any value in
      [0, 100] it stays in [0, 100], never goes down, and either rises by
      exactly 5 or stops at 100. */
  function AdvanceGauge(g: int): (r: int)
    ensures 0 <= g <= GaugeMax ==> g <= r <= GaugeMax
    ensures r <= g + GaugeStep
    ensures r == g + GaugeStep || r == GaugeMax
  {
    Min(GaugeMax, g + GaugeStep)
  }

  /** The two level checks of the submit handler. Both read the level held
      BEFORE the call, so at most one of them fires; `total` is the old point
      total plus the task's reward. */
  function NextLevel(level: int, total: int): (r: int)
    ensures 1 <= level <= 3 ==> level <= r <= 3 && r <= level + 1
  {
    var afterFirst := if total > Level2Threshold && level == 1 then 2 else level;
    if total > Level3Threshold && level == 2 then 3 else afterFirst
  }

  /** Reference definition: the level a point total stands for. */
  function LevelFor(points: int): (r: int)
    ensures 1 <= r <= 3
    ensures r == 1 <==> points <= Level2Threshold
    ensures r == 3 <==> points > Level3Threshold
  {
    if points > Level3Threshold then 3 else if points > Level2Threshold then 2 else 1
  }

  /** Reference definition: the gauge after `n` recorded efforts. */
  function GaugeAfter(n: nat): (r: int)
    ensures 0 <= r <= GaugeMax
    ensures r == GaugeMax || r == GaugeStep * n
  {
    Min(GaugeMax, GaugeStep * n)
  }

  /** Reference definition: the points recorded in a journal. With no
      negative reward in it, the sum is not negative. */
  function TotalPoints(journal: seq<Entry>): (r: int)
    ensures (forall i :: 0 <= i < |journal| ==> journal[i].points >= 0) ==> r >= 0
  {
    if journal == [] then 0 else journal[0].points + TotalPoints(journal[1..])
  }

  /** The entry was recorded from a catalog task: its title and points are
      that task's text and reward. */
  ghost predicate FromCatalog(e: Entry)
  {
    exists t :: t in Tasks && e.taskTitle == t.text && e.points == t.points
  }

  /** A level rises exactly when the checked threshold is strictly exceeded:
      100 points exactly keeps level 1 and 300 exactly keeps level 2; level 3
      never changes. */
  lemma LevelUpIff(level: int, total: int)
    requires 1 <= level <= 3
    ensures NextLevel(level, total) == level || NextLevel(level, total) == level + 1
    ensures NextLevel(level, total) == level + 1
            <==> (level == 1 && total > Level2Threshold) || (level == 2 && total > Level3Threshold)
    ensures NextLevel(3, total) == 3
  {
  }

  /** A level-1 traveller jumping past both thresholds in one call reaches
      only level 2. */
  lemma NoDoubleLevelUp(total: int)
    ensures NextLevel(1, total) <= 2
    ensures total > Level3Threshold ==> NextLevel(1, total) == 2
  {
  }

  /** The two checks keep the level equal to `LevelFor` of the new total as
      long as one reward never spans the whole gap between the thresholds
      (every catalog reward is at most 25 points). */
  lemma LevelTracksPoints(points: int, award: int)
    requires 0 <= points
    requires 0 < award <= Level3Threshold - Level2Threshold
    ensures NextLevel(LevelFor(points), points + award) == LevelFor(points + award)
  {
  }

  /** Without that bound the checks lag behind `LevelFor`: 95 points at level 1
      plus a reward of 250 gives 345 points but only level 2. */
  lemma LargeAwardLagsBehind()
    ensures LevelFor(95) == 1
    ensures NextLevel(LevelFor(95), 95 + 250) == 2
    ensures LevelFor(95 + 250) == 3
  {
  }

  /** One more effort turns the gauge of `n` efforts into the gauge of `n + 1`. */
  lemma GaugeAfterStep(n: nat)
    ensures AdvanceGauge(GaugeAfter(n)) == GaugeAfter(n + 1)
  {
  }

  /** The gauge saturates: from 95 or above one step reaches exactly 100
      (98 goes to 100, not 103), and 100 stays 100. */
  lemma GaugeSaturates(g: int)
    requires 95 <= g <= GaugeMax
    ensures AdvanceGauge(g) == GaugeMax
  {
  }

  /** Recording an entry adds exactly its points to the journal's total. */
  lemma TotalPointsPrepend(e: Entry, journal: seq<Entry>)
    ensures TotalPoints([e] + journal) == e.points + TotalPoints(journal)
  {
    assert ([e] + journal)[1..] == journal;
  }

  /** Every entry of the journal was recorded from a catalog task. */
  ghost predicate AllFromCatalog(journal: seq<Entry>)
  {
    journal == [] || (FromCatalog(journal[0]) && AllFromCatalog(journal[1..]))
  }

  /** A journal of catalog entries has a total of at least its length times
      the smallest reward (10), so it is never negative. */
  lemma {:induction false} TotalPointsOfCatalogEntries(journal: seq<Entry>)
    requires AllFromCatalog(journal)
    ensures TotalPoints(journal) >= 10 * |journal|
  {
    if journal != [] {
      var t :| t in Tasks && journal[0].taskTitle == t.text && journal[0].points == t.points;
      assert t.points >= 10;
      TotalPointsOfCatalogEntries(journal[1..]);
    }
  }
  /** The progression fields agree with the journal: the level is the one the
      point total stands for, the points are the sum of the journal, the
      gauge is the gauge after as many efforts as the journal holds, and
      every entry was recorded from a catalog task. */
  ghost predicate Consistent(level: int, points: int, gauge: int, journal: seq<Entry>)
  {
    && level == LevelFor(points)
    && points == TotalPoints(journal)
    && gauge == GaugeAfter(|journal|)
    && AllFromCatalog(journal)
  }

  /** Recording an effort on a catalog task keeps the fields consistent with
      the journal, when the new entry snapshots the task, the reward is added,
      the gauge advances one step and the level checks run. */
  lemma RecordKeepsConsistent(level: int, points: int, gauge: int, journal: seq<Entry>, t: Task, e: Entry)
    requires Consistent(level, points, gauge, journal)
    requires t in Tasks && e.taskTitle == t.text && e.points == t.points
    ensures Consistent(NextLevel(level, points + t.points), points + t.points,
                       AdvanceGauge(gauge), [e] + journal)
  {
    TaskPointsBounded(t);
    TotalPointsPrepend(e, journal);
    TotalPointsOfCatalogEntries(journal);
    GaugeAfterStep(|journal|);
    LevelTracksPoints(points, t.points);
    assert ([e] + journal)[1..] == journal;
  }
}

