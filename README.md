# Al-Musafir progression engine

Al-Musafir ("the traveller") is a single-page app in which the user performs
small daily spiritual efforts (tasks), writes a reflection for each, and sees
their progress as points, a level from 1 to 3, and a gauge from 0 to 100
called the polishing of the heart's mirror. This project models the
progression engine held in the `App` component: its four state fields
(`level`, `points`, `mirrorPolishing`, `journalEntries`) together with the
open task and the draft reflection, the handlers that change them, the fixed
catalog of stages and tasks, and the read-only views derived from the level
and the gauge.

Modules, one per component of `App.js`:

- `Catalog`: the three stages and the four tasks as constants, with their shape.
- `Reflection`: the blank test on a reflection, `String.prototype.trim` over the
  ECMAScript whitespace and line-terminator characters.
- `Progression`: the pure rules of one recorded effort (gauge step, the two
  level checks, the journal entry) and reference definitions of what the state
  must agree with: `LevelFor` (the level a point total stands for), `GaugeAfter`
  (the gauge after n efforts) and `TotalPoints` (the sum of the journal).
- `Projections`: stage unlock, the level bar and the gauge caption bands.
- `App`: class `Engine` with the state fields and the handlers as methods. Its
  `Valid()` invariant says the level equals `LevelFor(points)`, the points equal
  the journal's total, the gauge equals `GaugeAfter(|journal|)`, and every entry
  and the open task come from the catalog. `Walkthrough` is a client that
  replays the first use of the app: a blank submission that is refused, then
  one that is recorded.

Each handler is one atomic step computed from the state before the event, as
React's batched `setState` calls behave. Two details follow the code:

- `handleSubmitExperience` runs both level checks of lines 66-67 against the
  `level` and `points` captured when the handler started. That is why a level-1
  traveller who passed 300 points in one step reaches only level 2.
- The level equals `LevelFor(points)` at all times. This holds only because no
  catalog reward (at most 25) spans the 200-point gap between the thresholds.
  `Progression.LargeAwardLagsBehind` shows what a larger reward would do.

Four further points about the code:

- The code has no unknown-task path. Every call to `handleOpenTask` passes an
  element of `tasks` (lines 109-112), so `OpenTask` requires a catalog task.
- The draft is not cleared after a successful submission. `SubmitExperience`
  keeps it.
- The code reads `activeTask` only after the blank check. So
  `SubmitExperience` needs an open task only when the draft is not blank.
- The handler returns nothing. The model's `recorded` result says which of its
  two branches ran.

## Model

| member | source | states |
|---|---|---|
| `Catalog.StagesShape` | al-musafir/src/App.js:31-35 | there are exactly three stages and their ids are distinct |
| `Catalog.TasksShape` | al-musafir/src/App.js:37-42 | there are four tasks; the task at position k has id k + 1, so the ids are distinct; the rewards are 10, 25, 20 and 15 |
| `Catalog.TaskPointsBounded` | al-musafir/src/App.js:38-41 | every catalog reward is positive and at most 25 |
| `Reflection.ContentStart` | al-musafir/src/App.js:50 | the first non-whitespace position at or after i; everything skipped is whitespace |
| `Reflection.ContentEnd` | al-musafir/src/App.js:50 | the end of the content of a slice; everything after it is whitespace and the character before it is not |
| `Reflection.Trim` | al-musafir/src/App.js:50 | `trim` gives a slice `s[a..e]` of its input that neither starts nor ends with whitespace, with only whitespace before `a` and after `e` |
| `Reflection.BlankIffTrimEmpty` | al-musafir/src/App.js:50 | the submit guard `!experience.trim()` holds exactly when the reflection is blank |
| `Reflection.IsBlank` | al-musafir/src/App.js:50 | the reflection the handler rejects: blank exactly when all its characters are whitespace, so the empty one is blank |
| `Progression.AdvanceGauge` | al-musafir/src/App.js:62 | from any value in [0, 100] the gauge stays in [0, 100] and never drops; it rises by exactly 5 or stops at 100 |
| `Progression.GaugeSaturates` | al-musafir/src/App.js:62 | from 95 to 100 one step gives exactly 100, so 98 goes to 100 and not 103 |
| `Progression.NextLevel` | al-musafir/src/App.js:66-67 | from a level in {1, 2, 3} the new level stays in {1, 2, 3}, never drops and rises by at most one |
| `Progression.LevelUpIff` | al-musafir/src/App.js:66-67 | the level rises exactly when level 1 has a total strictly over 100 or level 2 a total strictly over 300; 100 and 300 exactly do not; level 3 is terminal |
| `Progression.NoDoubleLevelUp` | al-musafir/src/App.js:66-67 | from level 1 one submission never goes past level 2, even with a total over 300 |
| `Progression.LevelFor` | al-musafir/src/App.js:66-67 | the level a point total stands for: 1 up to 100, 3 above 300, otherwise 2 |
| `Progression.LevelTracksPoints` | al-musafir/src/App.js:66-67 | while no reward exceeds 200, the two checks keep the level equal to `LevelFor` of the new total |
| `Progression.LargeAwardLagsBehind` | al-musafir/src/App.js:66-67 | with a reward of 250, 95 points at level 1 become 345 points at level 2 while `LevelFor(345)` is 3 |
| `Progression.GaugeAfter` | al-musafir/src/App.js:62 | the gauge after n efforts is in [0, 100] and is 5 n or 100 |
| `Progression.GaugeAfterStep` | al-musafir/src/App.js:62 | one gauge step turns the gauge of n efforts into the gauge of n + 1 |
| `Progression.TotalPoints` | al-musafir/src/App.js:61 | the journal's total is not negative when no entry has negative points |
| `Progression.TotalPointsPrepend` | al-musafir/src/App.js:57-61 | prepending an entry adds exactly its points to the journal's total |
| `Progression.TotalPointsOfCatalogEntries` | al-musafir/src/App.js:57-61 | a journal of catalog entries totals at least 10 points per entry |
| `Progression.RecordKeepsConsistent` | al-musafir/src/App.js:52-67 | recording a catalog task keeps level, points and gauge consistent with the journal, and keeps every entry a catalog entry |
| `Projections.UnlockedStages` | al-musafir/src/App.js:154-155 | one flag per stage, in catalog order; flag idx is true exactly when level > idx |
| `Projections.CountBelow` | al-musafir/src/App.js:155 | of n positions tested with level > idx, exactly level are true, clamped to [0, n] |
| `Projections.UnlockedCountIsLevel` | al-musafir/src/App.js:155 | with the level in {1, 2, 3}, exactly level stages are unlocked; the first always is; the unlocked stages form a prefix |
| `Projections.UnlockMonotone` | al-musafir/src/App.js:155 | a higher level never locks a stage again |
| `Projections.LevelBar` | al-musafir/src/App.js:197-198 | one flag per bar segment i = 1, 2, 3; segment i is lit exactly when level >= i |
| `Projections.LevelBarMatchesStages` | al-musafir/src/App.js:198 | segment i + 1 is lit exactly when stage i is unlocked, so exactly level segments are lit |
| `Projections.GaugeBand` | al-musafir/src/App.js:95-97 | obscured exactly below 30, emerging exactly from 30 to 69, radiant exactly from 70 |
| `Projections.HeartGlows` | al-musafir/src/App.js:92 | the heart pulses once the gauge is past 50; it never pulses under the obscured caption and always pulses under the radiant one |
| `Projections.GaugeViewsMonotone` | al-musafir/src/App.js:92-97 | a fuller gauge never shows an earlier caption and never stops the heart's pulse |
| `Projections.BandAfterEfforts` | al-musafir/src/App.js:95-97 | the caption is obscured for the first 5 efforts and radiant from the 14th on |
| `App.Engine.constructor` | al-musafir/src/App.js:20-29 | the session starts at level 1 with 0 points, an empty gauge and journal, no open task and an empty draft |
| `App.Engine.OpenTask` | al-musafir/src/App.js:44-47 | opening a catalog task makes it the open task and clears the draft; nothing else changes |
| `App.Engine.EditDraft` | al-musafir/src/App.js:250 | typing replaces the draft; nothing else changes |
| `App.Engine.CloseTask` | al-musafir/src/App.js:237 | the close button drops the open task; nothing else changes |
| `App.Engine.SubmitExperience` | al-musafir/src/App.js:49-70 | a blank draft changes nothing. Otherwise the journal becomes the new entry followed by the old journal. The entry holds the task's text and points, the untrimmed draft and the given id and date. The points grow by the reward, the gauge takes one step and the level follows `NextLevel` from the old level and old points. The task is closed. Points, gauge and level never drop, the level rises by at most one, and the invariant is kept |

## Left out

- Rendering: the JSX, CSS classes, icons, colours, the bottom navigation, `view` switching and the meditation screen (lines 77-308, apart from the views modelled above). They are presentation only.
- The clock: `Date.now()` and `toLocaleDateString('fr-FR', …)` (lines 53, 56) are parameters `id` and `date` of `SubmitExperience`. So the model cannot show that entry ids are unique or increasing.
- `showNotification` and its `setTimeout` (lines 64, 72-75) and the `notif` state are not modelled. They are a timer and a formatted message, and no state invariant depends on them.
- The mirror's opacity `mirrorPolishing / 100` and the gauge width (lines 86, 90, 100) are not modelled. They are floating-point display values.
- The caption texts themselves are not modelled. `Projections.Band` names the three captions.
- React's re-render and batching semantics: each handler is one atomic transition on the engine's state.
- JavaScript numbers are doubles. The model uses unbounded integers, which agree with doubles for every value the app can reach.
- The submit button's `disabled={!experience.trim()}` (line 257) uses the same test as the handler's guard. The model relies on the guard alone.
- An unknown-task error path: the code has none, so none is modelled.
