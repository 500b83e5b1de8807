# Skills income tracker: a Dafny model

The skill recommender is a single React component,
`skill-recommender/src/SkillsIncomeTracker.tsx`. It lets a user pick up to
five skills from a fixed catalog of fifteen. Each skill has a name, an
average annual income and a growth rate. Once five skills are picked, a
spinner runs for a second. Then a leaderboard appears: the picks ranked by
income, highest first. Beside it the component shows three recommendations:
the best-paid catalog skills that were not picked.

This project models that component's logic in three modules, and a
fourth holds example runs:

- `Skills` (`skills.dfy`) holds the `Skill` datatype and the fifteen-entry
  `Catalog`, with the source's names, incomes and growth rates, in the
  source's order. It also holds removal by name (`WithoutName`) and its
  properties.
- `Ranking` (`ranking.dfy`) holds the two derived lists as pure functions.
  `SortByIncome` is a stable insertion sort, descending by income, which
  matches what `Array.prototype.sort` does with the comparator
  `b.income - a.income` (the sort has been stable since ECMAScript 2019).
  `Unselected` is the catalog filter, and `Recommended` ranks what that
  filter leaves and keeps the first three.
- `SelectionTracker` (`tracker.dfy`) holds the class `Tracker`. Its fields
  are `selectedSkills`, `showLeaderboard`, `isLoading` and `pendingReveals`.
  Its methods are the three event handlers plus `FireReveal`, which is the
  body of the one-second timer callback. Each method keeps the invariant
  `Valid`: at most five skills, pairwise distinct names, and the spinner
  only on while a reveal is still due.
- `TrackerScenarios` (`scenarios.dfy`) holds concrete runs over the real
  catalog. One is the five-pick walkthrough. Others show the two refusals
  and the race between a removal and a pending reveal.

Timing is modelled as follows. Each successful pick that brings the
selection to five adds one to `pendingReveals`, and the environment may
call `FireReveal` at any later point while one is pending. A count is
needed rather than a flag: removing a skill and picking another before the
first reveal fires leaves two reveals pending (`TwoRevealsScenario`). As in the source, neither removal nor reset
cancels a pending reveal. So a reveal that fires after a removal still
shows the leaderboard over four skills (`RemoveBeforeRevealScenario`).

`handleReset` (lines 85-88) clears the selection and hides the leaderboard,
but touches neither `isLoading` nor the pending timer. So `Reset` leaves
`isLoading` and `pendingReveals` as they were.

Most of the `...From<k>` lemmas in `scenarios.dfy` (`FivePicksRankedFrom<k>`,
`FivePicksUnselectedFrom<k>`, `UnpickedRankedFrom<k>`) are not separate
properties. Each one computes a single step of one concrete example, a
list element at a time, for the scenario lemma that follows it.

## Model

| member | source | states |
|---|---|---|
| Skills.CatalogDistinct | skill-recommender/src/SkillsIncomeTracker.tsx:28-44 | the catalog has fifteen entries and their names are pairwise distinct |
| SelectionTracker.Tracker.constructor | skill-recommender/src/SkillsIncomeTracker.tsx:47-49 | a new tracker has an empty selection, hides the leaderboard, has the spinner off and no reveal pending |
| SelectionTracker.Tracker.AddSkill | skill-recommender/src/SkillsIncomeTracker.tsx:51-75 | a missing pick, a pick at the cap of five and a pick whose name is already selected are each reported by their own outcome and change no state; otherwise the skill is appended after the old selection; reaching five turns the spinner on and schedules one reveal; fewer than five leaves both flags alone; the cap and distinct names are preserved |
| SelectionTracker.Tracker.FireReveal | skill-recommender/src/SkillsIncomeTracker.tsx:70-73 | the pending reveal turns the spinner off and shows the leaderboard whatever the selection now holds, and leaves the selection as it is |
| SelectionTracker.Tracker.RemoveSkill | skill-recommender/src/SkillsIncomeTracker.tsx:77-83 | the new selection is the old one without the skills of that name; the leaderboard ends hidden; the spinner and the pending reveals are untouched |
| SelectionTracker.Tracker.Reset | skill-recommender/src/SkillsIncomeTracker.tsx:85-88 | the selection is emptied and the leaderboard hidden; the spinner and the pending reveals are untouched |
| SelectionTracker.Tracker.SortedSkills | skill-recommender/src/SkillsIncomeTracker.tsx:90 | the leaderboard holds the same skills as the selection, with no income rising along it, and skills of equal income in their pick order |
| SelectionTracker.Tracker.RecommendedSkills | skill-recommender/src/SkillsIncomeTracker.tsx:92-96 | there are always exactly three recommendations; each comes from the catalog, none carries a selected name, no income rises along them, no unselected catalog skill left out earns more than any of them, and within each income they are the first unselected catalog skills of that income in catalog order, so none repeats and a tie at the cut of three goes to the earlier catalog entry |
| Skills.WithoutName | skill-recommender/src/SkillsIncomeTracker.tsx:78 | removal by name never lengthens the selection; its contents, order, absence of the removed name and exact length are stated by WithoutNameMembers, WithoutNameAppend, WithoutNameAbsent and WithoutNameLength |
| Skills.WithoutNameMembers | skill-recommender/src/SkillsIncomeTracker.tsx:78 | a skill survives removal by name exactly when it was in the selection and carries another name |
| Skills.WithoutNameAbsent | skill-recommender/src/SkillsIncomeTracker.tsx:78 | after removal the removed name is absent |
| Skills.NameInWithout | skill-recommender/src/SkillsIncomeTracker.tsx:78 | removal does not change whether any other name is present |
| Skills.WithoutNameAppend | skill-recommender/src/SkillsIncomeTracker.tsx:78 | removal keeps the survivors in their original order: filtering a concatenation is filtering each part |
| Skills.WithoutAbsentName | skill-recommender/src/SkillsIncomeTracker.tsx:78 | removing a name that is not selected leaves the selection unchanged |
| Skills.WithoutNameLength | skill-recommender/src/SkillsIncomeTracker.tsx:78 | removal shortens the selection by exactly the number of skills carrying that name |
| Skills.WithoutNameDistinct | skill-recommender/src/SkillsIncomeTracker.tsx:78 | removal keeps the names pairwise distinct |
| Skills.NameCountZero | skill-recommender/src/SkillsIncomeTracker.tsx:59 | a name occurs zero times exactly when no selected skill carries it |
| Skills.DistinctNameCount | skill-recommender/src/SkillsIncomeTracker.tsx:59-62 | in a selection with distinct names, a name occurs at most once, and once exactly when it is present |
| Skills.AppendDistinct | skill-recommender/src/SkillsIncomeTracker.tsx:59-64 | appending a skill whose name is absent keeps the names distinct |
| Skills.DistinctPrefixFresh | skill-recommender/src/SkillsIncomeTracker.tsx:59-64 | in a selection with distinct names, no skill's name occurs earlier, so picking the skills one by one passes the duplicate check each time |
| Ranking.Insert | skill-recommender/src/SkillsIncomeTracker.tsx:90 | insertion adds exactly one skill; where it goes is stated by InsertAfterPrefix, InsertPermutes, InsertNonIncreasing and InsertStable |
| Ranking.SortByIncome | skill-recommender/src/SkillsIncomeTracker.tsx:90 | the ranking is as long as its input; that it is the stable descending sort is stated by SortPermutes, SortNonIncreasing, SortStable and SortByIncomeCharacterized |
| Ranking.OfIncome | skill-recommender/src/SkillsIncomeTracker.tsx:90 | the skills of one income, in order, include exactly the skills of the input that earn that income |
| Ranking.InsertAfterPrefix | skill-recommender/src/SkillsIncomeTracker.tsx:90 | inserting a skill places it after the leading skills that earn more and ahead of the first that earns no more |
| Ranking.InsertPermutes | skill-recommender/src/SkillsIncomeTracker.tsx:90 | insertion adds exactly one occurrence of the inserted skill |
| Ranking.SortPermutes | skill-recommender/src/SkillsIncomeTracker.tsx:90 | the ranking is a permutation of its input |
| Ranking.ConsNonIncreasing | skill-recommender/src/SkillsIncomeTracker.tsx:90 | a skill earning at least as much as the head of a non-increasing list can be put in front of it |
| Ranking.InsertNonIncreasing | skill-recommender/src/SkillsIncomeTracker.tsx:90 | insertion into a non-increasing list keeps it non-increasing |
| Ranking.SortNonIncreasing | skill-recommender/src/SkillsIncomeTracker.tsx:90 | no income rises along the ranking |
| Ranking.OfIncomeAppend | skill-recommender/src/SkillsIncomeTracker.tsx:90 | selecting the skills of one income from a concatenation selects from each part, the first part's first |
| Ranking.InsertStable | skill-recommender/src/SkillsIncomeTracker.tsx:90 | insertion puts the skill ahead of every skill of equal income and keeps those in order |
| Ranking.SortStable | skill-recommender/src/SkillsIncomeTracker.tsx:90 | for each income, the skills earning it keep their relative order in the ranking |
| Ranking.SortStableAll | skill-recommender/src/SkillsIncomeTracker.tsx:90 | the same for every income at once |
| Ranking.StableOrderUnique | skill-recommender/src/SkillsIncomeTracker.tsx:90 | two non-increasing lists that agree, income by income, on which skills they hold and in which order are the same list |
| Ranking.SortByIncomeCharacterized | skill-recommender/src/SkillsIncomeTracker.tsx:90 | a list is the ranking of the input if and only if it is non-increasing and keeps, for every income, the input's skills of that income in their order |
| Ranking.Unselected | skill-recommender/src/SkillsIncomeTracker.tsx:94 | the filter never yields more entries than the catalog has; its contents, order and size are stated by UnselectedMembers, UnselectedAppend and UnselectedAtLeast |
| Ranking.UnselectedMembers | skill-recommender/src/SkillsIncomeTracker.tsx:94 | a catalog skill survives the filter exactly when no selected skill carries its name |
| Ranking.UnselectedIgnores | skill-recommender/src/SkillsIncomeTracker.tsx:94 | a selected name that no catalog entry carries excludes nothing |
| Ranking.UnselectedAppend | skill-recommender/src/SkillsIncomeTracker.tsx:93-94 | the filter keeps catalog order: filtering a concatenation is filtering each part, the first part's survivors first |
| Ranking.UnselectedAtLeast | skill-recommender/src/SkillsIncomeTracker.tsx:94 | over a catalog with distinct names, the filter keeps at least as many entries as the catalog has beyond the selection's length |
| Ranking.Recommended | skill-recommender/src/SkillsIncomeTracker.tsx:93-96 | there are never more than three recommendations; what they are is stated by RankedUnselected, RecommendedLength, RecommendedUnselected, RecommendedNonIncreasing, RecommendedBestAll and RecommendedStable |
| Ranking.RankedUnselected | skill-recommender/src/SkillsIncomeTracker.tsx:93-96 | the ranked survivors are a non-increasing permutation of the survivors, and the recommendations are a prefix of them |
| Ranking.RecommendedLength | skill-recommender/src/SkillsIncomeTracker.tsx:96 | there are three recommendations, or as many as survive the filter when that is fewer |
| Ranking.RecommendedUnselected | skill-recommender/src/SkillsIncomeTracker.tsx:93-96 | every recommendation is a catalog skill whose name is not selected |
| Ranking.RecommendedNonIncreasing | skill-recommender/src/SkillsIncomeTracker.tsx:95-96 | no income rises along the recommendations |
| Ranking.RecommendedBestAll | skill-recommender/src/SkillsIncomeTracker.tsx:92-96 | the same for every unselected, left-out catalog skill and every recommendation at once |
| Ranking.RecommendedStable | skill-recommender/src/SkillsIncomeTracker.tsx:94-96 | for every income, the recommendations of that income are a prefix of the unselected catalog entries of that income, in catalog order: the stable sort followed by the cut to three |
| Ranking.RecommendedBest | skill-recommender/src/SkillsIncomeTracker.tsx:93-96 | no unselected catalog skill that is left out earns more than a recommended one |
| TrackerScenarios.NotPicked | skill-recommender/src/SkillsIncomeTracker.tsx:94 | a name that none of the five scenario picks carries is not selected |
| TrackerScenarios.FivePicksRanked | skill-recommender/src/SkillsIncomeTracker.tsx:90 | Python, React, JavaScript, Node.js and DevOps rank as DevOps, React, Python, Node.js, JavaScript |
| TrackerScenarios.FivePicksUnselected | skill-recommender/src/SkillsIncomeTracker.tsx:93-94 | after those five picks, the ten other catalog skills remain, in catalog order |
| TrackerScenarios.UnpickedRanked | skill-recommender/src/SkillsIncomeTracker.tsx:95 | those ten rank Computer Vision, Blockchain, Artificial Intelligence first, and the ties keep catalog order |
| TrackerScenarios.FivePicksRecommended | skill-recommender/src/SkillsIncomeTracker.tsx:93-96 | the recommendations after those picks are Computer Vision, Blockchain and Artificial Intelligence |
| TrackerScenarios.FivePicksDistinct | skill-recommender/src/SkillsIncomeTracker.tsx:59 | the five scenario picks have distinct names |
| TrackerScenarios.PickFive | skill-recommender/src/SkillsIncomeTracker.tsx:51-75 | picking the five skills one by one into an empty tracker accepts each, selects them in pick order, and turns the spinner on with one reveal pending |
| TrackerScenarios.FivePicksScenario | skill-recommender/src/SkillsIncomeTracker.tsx:64-73 | after the five picks and the reveal, the leaderboard is shown over the ranked picks, and the recommendations are the three skills above |
| TrackerScenarios.DuplicateScenario | skill-recommender/src/SkillsIncomeTracker.tsx:59-62 | picking Blockchain twice refuses the second pick and keeps one skill |
| TrackerScenarios.SixthPickScenario | skill-recommender/src/SkillsIncomeTracker.tsx:54-57 | a sixth distinct pick is refused; five skills stay and the leaderboard stays shown |
| TrackerScenarios.RemovingReactLeavesFour | skill-recommender/src/SkillsIncomeTracker.tsx:78 | removing React from the five picks leaves four |
| TrackerScenarios.RemoveBeforeRevealScenario | skill-recommender/src/SkillsIncomeTracker.tsx:70-83 | removing a skill while the spinner runs does not cancel the reveal, which then shows the leaderboard over four skills with the spinner off |
| TrackerScenarios.TwoRevealsScenario | skill-recommender/src/SkillsIncomeTracker.tsx:64-83 | removing React after the five picks and then picking Blockchain is accepted and leaves two reveals pending; after both fire the leaderboard is shown with the spinner off |
| TrackerScenarios.TiesKeepPickOrder | skill-recommender/src/SkillsIncomeTracker.tsx:90 | Deep Learning and Cloud Computing, both at 115000, rank in whichever order they were picked |

## Left out

- The rendering (lines 98-234) is display only and not modelled. That covers the MUI container, the search box, the chips, the lists, the reset button and the spinner graphic.
- The search box's `disabled` flag (line 121) repeats the cap check in the display layer. `AddSkill` performs the check itself.
- The two `alert` notices (lines 55 and 60) are browser I/O. Each becomes an `AddOutcome` value, `CapReached` or `AlreadyAdded`.
- `setTimeout` and its 1000 ms delay (line 70) are not modelled as time. A scheduled callback is a count in `pendingReveals`, and the caller decides when `FireReveal` runs. The model does not say that a reveal must fire eventually, or when.
- React's `useState` updaters, re-rendering and stale closures (lines 47-49) are not modelled. Each handler is one sequential update of the tracker's fields, reading the state current at the call.
- The locale-dependent income formatting with `toLocaleString` and the growth display (lines 177 and 182) are presentation only. The `growth` field is carried but nothing derives from it.
- `src/App.tsx` is not part of this model. It sets up a theme and mounts the component.
- JavaScript numbers are doubles. Every catalog income is an integer far below 2^53, so `b.income - a.income` is exact and the model uses `int`. A `Skill` passed in from elsewhere with a fractional or non-finite income is not modelled.
