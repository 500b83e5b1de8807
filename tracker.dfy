/** The skills income tracker: the selection of up to five skills, the
    loading and leaderboard flags, and the handlers that update them. The
    one-second timer started by the fifth pick is modelled by a count of
    reveals that are scheduled and have not yet fired; the environment fires
    one by calling `FireReveal`. */
module SelectionTracker {
  import opened Skills
  import opened Ranking

  datatype Option<T> = None | Some(value: T)

  /** What an add request did: nothing was picked, the cap was reached, the
      name was already selected, or the skill was appended. */
  datatype AddOutcome = NothingPicked | CapReached | AlreadyAdded | Added

  class Tracker {
    var selectedSkills: seq<Skill>
    var showLeaderboard: bool
    var isLoading: bool
    /** Reveal callbacks scheduled by a fifth pick and not yet run. */
    var pendingReveals: nat

    /** The selection never exceeds the cap, its names are distinct, and the
        spinner is only on while a reveal is still to come. */
    ghost predicate Valid()
      reads this
    {
      |selectedSkills| <= MaxSkills &&
      DistinctNames(selectedSkills) &&
      (isLoading ==> pendingReveals > 0)
    }

    /** The component as mounted: nothing selected, no flag set. */
    constructor ()
      ensures Valid()
      ensures selectedSkills == [] && !showLeaderboard && !isLoading && pendingReveals == 0
    {
      selectedSkills := [];
      showLeaderboard := false;
      isLoading := false;
      pendingReveals := 0;
    }

    /** Handles a pick from the search box. An empty pick does nothing; a
        pick at the cap or of a name already selected is refused and changes
        nothing; otherwise the skill is appended, and if that makes five the
        spinner starts and a reveal is scheduled. */
    method AddSkill(skill: Option<Skill>) returns (outcome: AddOutcome)
      requires Valid()
      modifies this
      ensures Valid()
      ensures skill.None? ==> outcome == NothingPicked
      ensures skill.Some? && |old(selectedSkills)| >= MaxSkills ==> outcome == CapReached
      ensures (skill.Some? && |old(selectedSkills)| < MaxSkills &&
               NameIn(skill.value.name, old(selectedSkills))) ==> outcome == AlreadyAdded
      ensures (skill.Some? && |old(selectedSkills)| < MaxSkills &&
               !NameIn(skill.value.name, old(selectedSkills))) ==> outcome == Added
      ensures outcome != Added ==>
                selectedSkills == old(selectedSkills) && showLeaderboard == old(showLeaderboard) &&
                isLoading == old(isLoading) && pendingReveals == old(pendingReveals)
      ensures outcome == Added ==>
                selectedSkills == old(selectedSkills) + [skill.value] &&
                showLeaderboard == old(showLeaderboard)
      ensures outcome == Added && |selectedSkills| == MaxSkills ==>
                isLoading && pendingReveals == old(pendingReveals) + 1
      ensures outcome == Added && |selectedSkills| < MaxSkills ==>
                isLoading == old(isLoading) && pendingReveals == old(pendingReveals)
    {
      if skill.None? {
        return NothingPicked;
      }
      var s := skill.value;
      if |selectedSkills| >= MaxSkills {
        return CapReached;
      }
      if NameIn(s.name, selectedSkills) {
        return AlreadyAdded;
      }
      AppendDistinct(selectedSkills, s);
      var newSkills := selectedSkills + [s];
      selectedSkills := newSkills;
      if |newSkills| == MaxSkills {
        isLoading := true;
        pendingReveals := pendingReveals + 1;
      }
      outcome := Added;
    }

    /** The scheduled reveal runs: the spinner stops and the leaderboard is
        shown, whatever the selection now holds. */
    method FireReveal()
      requires Valid() && pendingReveals > 0
      modifies this
      ensures Valid()
      ensures !isLoading && showLeaderboard
      ensures pendingReveals == old(pendingReveals) - 1
      ensures selectedSkills == old(selectedSkills)
    {
      isLoading := false;
      showLeaderboard := true;
      pendingReveals := pendingReveals - 1;
    }

    /** Deletes every selected skill carrying the given name and hides the
        leaderboard; the spinner and any scheduled reveal are left alone. */
    method RemoveSkill(skill: Skill)
      requires Valid()
      modifies this
      ensures Valid()
      ensures selectedSkills == WithoutName(old(selectedSkills), skill.name)
      ensures !showLeaderboard
      ensures isLoading == old(isLoading) && pendingReveals == old(pendingReveals)
    {
      WithoutNameDistinct(selectedSkills, skill.name);
      WithoutNameLength(selectedSkills, skill.name);
      selectedSkills := WithoutName(selectedSkills, skill.name);
      if showLeaderboard {
        showLeaderboard := false;
      }
    }

    /** Clears the selection and hides the leaderboard; the spinner and any
        scheduled reveal are left alone. */
    method Reset()
      requires Valid()
      modifies this
      ensures Valid()
      ensures selectedSkills == [] && !showLeaderboard
      ensures isLoading == old(isLoading) && pendingReveals == old(pendingReveals)
    {
      selectedSkills := [];
      showLeaderboard := false;
    }

    /** The leaderboard list: the selection ranked by income, highest first. */
    function SortedSkills(): (r: seq<Skill>)
      reads this
      requires Valid()
      ensures multiset(r) == multiset(selectedSkills)
      ensures NonIncreasing(r)
      ensures forall v :: OfIncome(r, v) == OfIncome(selectedSkills, v)
      ensures |r| <= MaxSkills
    {
      SortNonIncreasing(selectedSkills);
      SortStableAll(selectedSkills);
      SortPermutes(selectedSkills);
      assert |multiset(SortByIncome(selectedSkills))| == |multiset(selectedSkills)|;
      SortByIncome(selectedSkills)
    }

    /** The recommendation list over the fixed catalog: since at most five
        names are selected and the catalog names fifteen distinct skills,
        it always holds exactly three unselected catalog skills, and no
        unselected catalog skill left out of it earns more. Within each
        income it holds the first unselected catalog skills of that income,
        in catalog order, so no skill appears twice and a tie at the cut
        goes to the earlier catalog entry. */
    function RecommendedSkills(): (r: seq<Skill>)
      reads this
      requires Valid()
      ensures |r| == RecommendCount
      ensures forall x :: x in r ==> x in Catalog && !NameIn(x.name, selectedSkills)
      ensures NonIncreasing(r)
      ensures forall x, i ::
                x in Catalog && !NameIn(x.name, selectedSkills) && x !in r && 0 <= i < |r| ==>
                  r[i].income >= x.income
      ensures forall v ::
                var ri := OfIncome(r, v);
                var ui := OfIncome(Unselected(Catalog, selectedSkills), v);
                |ri| <= |ui| && ri == ui[..|ri|]
    {
      CatalogDistinct();
      UnselectedAtLeast(Catalog, selectedSkills);
      RecommendedLength(Catalog, selectedSkills);
      RecommendedUnselected(Catalog, selectedSkills);
      RecommendedNonIncreasing(Catalog, selectedSkills);
      RecommendedBestAll(Catalog, selectedSkills);
      RecommendedStable(Catalog, selectedSkills);
      Recommended(Catalog, selectedSkills)
    }
  }
}
