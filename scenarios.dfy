/** Concrete runs of the tracker over the fixed catalog: the leaderboard
    after five picks, the refusals, and a reveal that fires after a removal. */
module TrackerScenarios {
  import opened Skills
  import opened Ranking
  import opened SelectionTracker

  /** A name none of the five picks carries is not selected by them. */
  lemma NotPicked(n: string)
    requires n != Python.name && n != React.name && n != JavaScript.name
    requires n != NodeJs.name && n != DevOps.name
    ensures !NameIn(n, FivePicks)
  {
  }

  /** The five picks of the scenarios, in pick order. */
  const FivePicks: seq<Skill> := [Python, React, JavaScript, NodeJs, DevOps]

  /** The constants `FivePicksSorted<k>` and the lemmas from here to the next
      documented one rank the five picks suffix by suffix, from the back:
      `FivePicksSorted<k>` is the ranking of `FivePicks[k..]`. */
  const FivePicksSorted4: seq<Skill> := [DevOps]

  lemma FivePicksRankedFrom4()
    ensures SortByIncome(FivePicks[4..]) == FivePicksSorted4
  {
    assert FivePicks[4..] == [FivePicks[4]] + [];
    SortByIncomeNil();
    SortCons(FivePicks[4], []);
    InsertHere(FivePicks[4], []);
  }

  const FivePicksSorted3: seq<Skill> := [DevOps, NodeJs]

  lemma FivePicksRankedFrom3()
    ensures SortByIncome(FivePicks[3..]) == FivePicksSorted3
  {
    FivePicksRankedFrom4();
    SortStep(FivePicks, 3, FivePicksSorted4, 1, FivePicksSorted3);
  }

  const FivePicksSorted2: seq<Skill> := [DevOps, NodeJs, JavaScript]

  lemma FivePicksRankedFrom2()
    ensures SortByIncome(FivePicks[2..]) == FivePicksSorted2
  {
    FivePicksRankedFrom3();
    SortStep(FivePicks, 2, FivePicksSorted3, 2, FivePicksSorted2);
  }

  const FivePicksSorted1: seq<Skill> := [DevOps, React, NodeJs, JavaScript]

  lemma FivePicksRankedFrom1()
    ensures SortByIncome(FivePicks[1..]) == FivePicksSorted1
  {
    FivePicksRankedFrom2();
    SortStep(FivePicks, 1, FivePicksSorted2, 1, FivePicksSorted1);
  }

  const FivePicksSorted0: seq<Skill> := [DevOps, React, Python, NodeJs, JavaScript]

  /** The five picks ranked by income. */
  lemma FivePicksRanked()
    ensures SortByIncome(FivePicks) == [DevOps, React, Python, NodeJs, JavaScript]
  {
    FivePicksRankedFrom1();
    SortStep(FivePicks, 0, FivePicksSorted1, 2, FivePicksSorted0);
    assert FivePicks[0..] == FivePicks;
  }

  /** The ten catalog skills left unpicked, in catalog order. */
  const Unpicked: seq<Skill> := [ArtificialIntelligence, MachineLearning, DeepLearning, ComputerVision, NaturalLanguageProcessing, DataScience, CloudComputing, Cybersecurity, Blockchain, MobileDevelopment]

  /** The lemmas from here to the next documented one filter the catalog
      one entry at a time, starting from the back. */
  lemma FivePicksUnselectedFrom14()
    ensures Unselected(Catalog[14..], FivePicks) == Unpicked[9..]
  {
    assert Catalog[15..] == [] && Unpicked[10..] == [];
    UnselectedNil(FivePicks);
    NotPicked(Catalog[14].name);
    UnselectedKeep(Catalog, 14, FivePicks, Unpicked, 9);
  }

  lemma FivePicksUnselectedFrom13()
    ensures Unselected(Catalog[13..], FivePicks) == Unpicked[8..]
  {
    FivePicksUnselectedFrom14();
    NotPicked(Catalog[13].name);
    UnselectedKeep(Catalog, 13, FivePicks, Unpicked, 8);
  }

  lemma FivePicksUnselectedFrom12()
    ensures Unselected(Catalog[12..], FivePicks) == Unpicked[7..]
  {
    FivePicksUnselectedFrom13();
    NotPicked(Catalog[12].name);
    UnselectedKeep(Catalog, 12, FivePicks, Unpicked, 7);
  }

  lemma FivePicksUnselectedFrom11()
    ensures Unselected(Catalog[11..], FivePicks) == Unpicked[7..]
  {
    FivePicksUnselectedFrom12();
    assert FivePicks[4].name == Catalog[11].name;
    UnselectedDrop(Catalog, 11, FivePicks, Unpicked, 7);
  }

  lemma FivePicksUnselectedFrom10()
    ensures Unselected(Catalog[10..], FivePicks) == Unpicked[6..]
  {
    FivePicksUnselectedFrom11();
    NotPicked(Catalog[10].name);
    UnselectedKeep(Catalog, 10, FivePicks, Unpicked, 6);
  }

  lemma FivePicksUnselectedFrom9()
    ensures Unselected(Catalog[9..], FivePicks) == Unpicked[6..]
  {
    FivePicksUnselectedFrom10();
    assert FivePicks[3].name == Catalog[9].name;
    UnselectedDrop(Catalog, 9, FivePicks, Unpicked, 6);
  }

  lemma FivePicksUnselectedFrom8()
    ensures Unselected(Catalog[8..], FivePicks) == Unpicked[6..]
  {
    FivePicksUnselectedFrom9();
    assert FivePicks[1].name == Catalog[8].name;
    UnselectedDrop(Catalog, 8, FivePicks, Unpicked, 6);
  }

  lemma FivePicksUnselectedFrom7()
    ensures Unselected(Catalog[7..], FivePicks) == Unpicked[6..]
  {
    FivePicksUnselectedFrom8();
    assert FivePicks[2].name == Catalog[7].name;
    UnselectedDrop(Catalog, 7, FivePicks, Unpicked, 6);
  }

  lemma FivePicksUnselectedFrom6()
    ensures Unselected(Catalog[6..], FivePicks) == Unpicked[6..]
  {
    FivePicksUnselectedFrom7();
    assert FivePicks[0].name == Catalog[6].name;
    UnselectedDrop(Catalog, 6, FivePicks, Unpicked, 6);
  }

  lemma FivePicksUnselectedFrom5()
    ensures Unselected(Catalog[5..], FivePicks) == Unpicked[5..]
  {
    FivePicksUnselectedFrom6();
    NotPicked(Catalog[5].name);
    UnselectedKeep(Catalog, 5, FivePicks, Unpicked, 5);
  }

  lemma FivePicksUnselectedFrom4()
    ensures Unselected(Catalog[4..], FivePicks) == Unpicked[4..]
  {
    FivePicksUnselectedFrom5();
    NotPicked(Catalog[4].name);
    UnselectedKeep(Catalog, 4, FivePicks, Unpicked, 4);
  }

  lemma FivePicksUnselectedFrom3()
    ensures Unselected(Catalog[3..], FivePicks) == Unpicked[3..]
  {
    FivePicksUnselectedFrom4();
    NotPicked(Catalog[3].name);
    UnselectedKeep(Catalog, 3, FivePicks, Unpicked, 3);
  }

  lemma FivePicksUnselectedFrom2()
    ensures Unselected(Catalog[2..], FivePicks) == Unpicked[2..]
  {
    FivePicksUnselectedFrom3();
    NotPicked(Catalog[2].name);
    UnselectedKeep(Catalog, 2, FivePicks, Unpicked, 2);
  }

  lemma FivePicksUnselectedFrom1()
    ensures Unselected(Catalog[1..], FivePicks) == Unpicked[1..]
  {
    FivePicksUnselectedFrom2();
    NotPicked(Catalog[1].name);
    UnselectedKeep(Catalog, 1, FivePicks, Unpicked, 1);
  }

  /** Filtering the catalog by the five picks leaves `Unpicked`. */
  lemma FivePicksUnselected()
    ensures Unselected(Catalog, FivePicks) == Unpicked
  {
    FivePicksUnselectedFrom1();
    NotPicked(Catalog[0].name);
    UnselectedKeep(Catalog, 0, FivePicks, Unpicked, 0);
    assert Catalog[0..] == Catalog && Unpicked[0..] == Unpicked;
  }

  /** The constants `UnpickedSorted<k>` and the lemmas from here to the next
      documented one rank the unpicked skills suffix by suffix, from the back:
      `UnpickedSorted<k>` is the ranking of `Unpicked[k..]`. */
  const UnpickedSorted9: seq<Skill> := [MobileDevelopment]

  lemma UnpickedRankedFrom9()
    ensures SortByIncome(Unpicked[9..]) == UnpickedSorted9
  {
    assert Unpicked[9..] == [Unpicked[9]] + [];
    SortByIncomeNil();
    SortCons(Unpicked[9], []);
    InsertHere(Unpicked[9], []);
  }

  const UnpickedSorted8: seq<Skill> := [Blockchain, MobileDevelopment]

  lemma UnpickedRankedFrom8()
    ensures SortByIncome(Unpicked[8..]) == UnpickedSorted8
  {
    UnpickedRankedFrom9();
    SortStep(Unpicked, 8, UnpickedSorted9, 0, UnpickedSorted8);
  }

  const UnpickedSorted7: seq<Skill> := [Blockchain, Cybersecurity, MobileDevelopment]

  lemma UnpickedRankedFrom7()
    ensures SortByIncome(Unpicked[7..]) == UnpickedSorted7
  {
    UnpickedRankedFrom8();
    SortStep(Unpicked, 7, UnpickedSorted8, 1, UnpickedSorted7);
  }

  const UnpickedSorted6: seq<Skill> := [Blockchain, Cybersecurity, CloudComputing, MobileDevelopment]

  lemma UnpickedRankedFrom6()
    ensures SortByIncome(Unpicked[6..]) == UnpickedSorted6
  {
    UnpickedRankedFrom7();
    SortStep(Unpicked, 6, UnpickedSorted7, 2, UnpickedSorted6);
  }

  const UnpickedSorted5: seq<Skill> := [Blockchain, Cybersecurity, CloudComputing, DataScience, MobileDevelopment]

  lemma UnpickedRankedFrom5()
    ensures SortByIncome(Unpicked[5..]) == UnpickedSorted5
  {
    UnpickedRankedFrom6();
    SortStep(Unpicked, 5, UnpickedSorted6, 3, UnpickedSorted5);
  }

  const UnpickedSorted4: seq<Skill> := [Blockchain, NaturalLanguageProcessing, Cybersecurity, CloudComputing, DataScience, MobileDevelopment]

  lemma UnpickedRankedFrom4()
    ensures SortByIncome(Unpicked[4..]) == UnpickedSorted4
  {
    UnpickedRankedFrom5();
    SortStep(Unpicked, 4, UnpickedSorted5, 1, UnpickedSorted4);
  }

  const UnpickedSorted3: seq<Skill> := [ComputerVision, Blockchain, NaturalLanguageProcessing, Cybersecurity, CloudComputing, DataScience, MobileDevelopment]

  lemma UnpickedRankedFrom3()
    ensures SortByIncome(Unpicked[3..]) == UnpickedSorted3
  {
    UnpickedRankedFrom4();
    SortStep(Unpicked, 3, UnpickedSorted4, 0, UnpickedSorted3);
  }

  const UnpickedSorted2: seq<Skill> := [ComputerVision, Blockchain, NaturalLanguageProcessing, Cybersecurity, DeepLearning, CloudComputing, DataScience, MobileDevelopment]

  lemma UnpickedRankedFrom2()
    ensures SortByIncome(Unpicked[2..]) == UnpickedSorted2
  {
    UnpickedRankedFrom3();
    SortStep(Unpicked, 2, UnpickedSorted3, 4, UnpickedSorted2);
  }

  const UnpickedSorted1: seq<Skill> := [ComputerVision, Blockchain, NaturalLanguageProcessing, Cybersecurity, DeepLearning, CloudComputing, DataScience, MachineLearning, MobileDevelopment]

  lemma UnpickedRankedFrom1()
    ensures SortByIncome(Unpicked[1..]) == UnpickedSorted1
  {
    UnpickedRankedFrom2();
    SortStep(Unpicked, 1, UnpickedSorted2, 7, UnpickedSorted1);
  }

  const UnpickedSorted0: seq<Skill> := [ComputerVision, Blockchain, ArtificialIntelligence, NaturalLanguageProcessing, Cybersecurity, DeepLearning, CloudComputing, DataScience, MachineLearning, MobileDevelopment]

  /** The ten unpicked skills ranked by income; ties keep catalog order. */
  lemma UnpickedRanked()
    ensures SortByIncome(Unpicked) == [ComputerVision, Blockchain, ArtificialIntelligence, NaturalLanguageProcessing, Cybersecurity, DeepLearning, CloudComputing, DataScience, MachineLearning, MobileDevelopment]
  {
    UnpickedRankedFrom1();
    SortStep(Unpicked, 0, UnpickedSorted1, 2, UnpickedSorted0);
    assert Unpicked[0..] == Unpicked;
  }

  /** The recommendations after the five picks. */
  lemma FivePicksRecommended()
    ensures Recommended(Catalog, FivePicks) == [ComputerVision, Blockchain, ArtificialIntelligence]
  {
    FivePicksUnselected();
    UnpickedRanked();
    assert [ComputerVision, Blockchain, ArtificialIntelligence, NaturalLanguageProcessing, Cybersecurity, DeepLearning, CloudComputing, DataScience, MachineLearning, MobileDevelopment][..3] == [ComputerVision, Blockchain, ArtificialIntelligence];
  }

  lemma FivePicksDistinct()
    ensures DistinctNames(FivePicks)
  {
  }

  /** Picks the five skills of `FivePicks` in order into an empty tracker:
      each pick is accepted and the fifth starts the spinner. */
  method PickFive(t: Tracker)
    requires t.Valid() && t.selectedSkills == []
    modifies t
    ensures t.Valid() && t.selectedSkills == FivePicks
    ensures t.isLoading && t.pendingReveals == old(t.pendingReveals) + 1
    ensures t.showLeaderboard == old(t.showLeaderboard)
  {
    FivePicksDistinct();
    var o: AddOutcome;
    DistinctPrefixFresh(FivePicks, 0);
    assert FivePicks[..0] == [];
    o := t.AddSkill(Some(FivePicks[0]));
    assert t.selectedSkills == FivePicks[..1];
    DistinctPrefixFresh(FivePicks, 1);
    o := t.AddSkill(Some(FivePicks[1]));
    assert t.selectedSkills == FivePicks[..2];
    DistinctPrefixFresh(FivePicks, 2);
    o := t.AddSkill(Some(FivePicks[2]));
    assert t.selectedSkills == FivePicks[..3];
    DistinctPrefixFresh(FivePicks, 3);
    o := t.AddSkill(Some(FivePicks[3]));
    assert t.selectedSkills == FivePicks[..4];
    DistinctPrefixFresh(FivePicks, 4);
    o := t.AddSkill(Some(FivePicks[4]));
    assert t.selectedSkills == FivePicks[..5] == FivePicks;
  }

  /** Picking Python, React, JavaScript, Node.js and DevOps and letting the
      reveal fire shows them ranked DevOps, React, Python, Node.js,
      JavaScript, and recommends Computer Vision, Blockchain and Artificial
      Intelligence. */
  method FivePicksScenario() returns (shown: bool, board: seq<Skill>, recommended: seq<Skill>)
    ensures shown
    ensures board == [DevOps, React, Python, NodeJs, JavaScript]
    ensures recommended == [ComputerVision, Blockchain, ArtificialIntelligence]
  {
    var t := new Tracker();
    PickFive(t);
    t.FireReveal();
    shown := t.showLeaderboard;
    board := t.SortedSkills();
    FivePicksRanked();
    recommended := t.RecommendedSkills();
    FivePicksRecommended();
  }

  /** Picking the same skill twice refuses the second pick. */
  method DuplicateScenario() returns (second: AddOutcome, count: nat)
    ensures second == AlreadyAdded && count == 1
  {
    var t := new Tracker();
    var first := t.AddSkill(Some(Blockchain));
    assert t.selectedSkills[0].name == Blockchain.name;
    second := t.AddSkill(Some(Blockchain));
    count := |t.selectedSkills|;
  }

  /** A sixth distinct pick is refused and the leaderboard stays shown. */
  method SixthPickScenario() returns (sixth: AddOutcome, count: nat, shown: bool)
    ensures sixth == CapReached && count == 5 && shown
  {
    var t := new Tracker();
    PickFive(t);
    t.FireReveal();
    sixth := t.AddSkill(Some(Blockchain));
    count := |t.selectedSkills|;
    shown := t.showLeaderboard;
  }

  lemma RemovingReactLeavesFour()
    ensures |WithoutName(FivePicks, React.name)| == 4
  {
    FivePicksDistinct();
    assert FivePicks[1].name == React.name;
    DistinctNameCount(React.name, FivePicks);
    WithoutNameLength(FivePicks, React.name);
  }

  /** Nothing cancels the scheduled reveal: removing a skill while the
      spinner runs still lets the reveal show the leaderboard over four
      skills. */
  method RemoveBeforeRevealScenario() returns (count: nat, shown: bool, loading: bool)
    ensures count == 4 && shown && !loading
  {
    var t := new Tracker();
    PickFive(t);
    t.RemoveSkill(React);
    RemovingReactLeavesFour();
    t.FireReveal();
    count := |t.selectedSkills|;
    shown := t.showLeaderboard;
    loading := t.isLoading;
  }

  /** Every pick that brings the selection to five schedules a reveal: after
      the five picks, removing React and picking Blockchain, two reveals are
      pending; once both have fired the leaderboard is shown and the spinner
      is off. */
  method TwoRevealsScenario() returns (outcome: AddOutcome, pending: nat, bothFired: bool)
    ensures outcome == Added && pending == 2 && bothFired
  {
    var t := new Tracker();
    PickFive(t);
    t.RemoveSkill(React);
    RemovingReactLeavesFour();
    NotPicked(Blockchain.name);
    NameInWithout(Blockchain.name, FivePicks, React.name);
    outcome := t.AddSkill(Some(Blockchain));
    pending := t.pendingReveals;
    t.FireReveal();
    t.FireReveal();
    bothFired := t.showLeaderboard && !t.isLoading && t.pendingReveals == 0;
  }

  /** Deep Learning and Cloud Computing both earn 115000; ranking keeps
      whichever was picked first ahead. */
  lemma TiesKeepPickOrder()
    ensures SortByIncome([DeepLearning, CloudComputing]) == [DeepLearning, CloudComputing]
    ensures SortByIncome([CloudComputing, DeepLearning]) == [CloudComputing, DeepLearning]
  {
    SortByIncomeNil();
    SortCons(CloudComputing, []);
    InsertHere(CloudComputing, []);
    SortCons(DeepLearning, [CloudComputing]);
    InsertHere(DeepLearning, [CloudComputing]);
    SortCons(DeepLearning, []);
    InsertHere(DeepLearning, []);
    SortCons(CloudComputing, [DeepLearning]);
    InsertHere(CloudComputing, [DeepLearning]);
  }
}
