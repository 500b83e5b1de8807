/** The two derived lists of the tracker: the selection ranked by income
    (highest first, ties in their original order, as a stable sort does) and
    the recommendations, the three best-paid catalog skills not selected. */
module Ranking {
  import opened Skills

  /** How many recommendations are shown. */
  const RecommendCount: nat := 3

  /** Income never rises from one position to a later one. */
  predicate NonIncreasing(s: seq<Skill>)
  {
    forall i, j :: 0 <= i < j < |s| ==> s[i].income >= s[j].income
  }

  /** The elements of `s` whose income is exactly `v`, in their order in `s`.
      A sort is stable when it leaves this unchanged for every `v`. */
  function OfIncome(s: seq<Skill>, v: int): (r: seq<Skill>)
    ensures forall x :: x in r <==> x in s && x.income == v
  {
    if s == [] then []
    else (if s[0].income == v then [s[0]] else []) + OfIncome(s[1..], v)
  }

  /** Places `x` into `t` just before the first element that does not earn
      more than `x`, so `x` comes ahead of the elements it ties with. */
  function Insert(x: Skill, t: seq<Skill>): (r: seq<Skill>)
    ensures |r| == |t| + 1
  {
    if t == [] || t[0].income <= x.income then [x] + t
    else [t[0]] + Insert(x, t[1..])
  }

  /** The selection copied and sorted by income, highest first, with equal
      incomes in their original relative order. */
  function SortByIncome(s: seq<Skill>): (r: seq<Skill>)
    ensures |r| == |s|
  {
    if s == [] then [] else Insert(s[0], SortByIncome(s[1..]))
  }

  /** One step of the ranking: the first skill is inserted into the ranked
      rest. */
  lemma SortCons(x: Skill, s: seq<Skill>)
    ensures SortByIncome([x] + s) == Insert(x, SortByIncome(s))
  {
    assert ([x] + s)[0] == x && ([x] + s)[1..] == s;
  }

  lemma SortByIncomeNil()
    ensures SortByIncome([]) == []
  {
  }

  lemma InsertHere(x: Skill, t: seq<Skill>)
    requires t == [] || t[0].income <= x.income
    ensures Insert(x, t) == [x] + t
  {
  }

  /** `Insert` places `x` right after the leading elements that earn more
      than it, ahead of everything from the first element that earns no more. */
  lemma {:induction false} InsertAfterPrefix(x: Skill, p: seq<Skill>, t: seq<Skill>)
    requires forall i :: 0 <= i < |p| ==> p[i].income > x.income
    requires t == [] || t[0].income <= x.income
    ensures Insert(x, p + t) == p + [x] + t
  {
    if p == [] {
      assert p + t == t;
    } else {
      assert (p + t)[0] == p[0] && (p + t)[1..] == p[1..] + t;
      InsertAfterPrefix(x, p[1..], t);
      assert p + [x] + t == [p[0]] + (p[1..] + [x] + t);
    }
  }

  /** One step of the ranking over the suffixes of `s`: the skill at `k` goes
      into the ranking of what follows it, after the `i` leading skills that
      earn more. */
  lemma SortStep(s: seq<Skill>, k: nat, prev: seq<Skill>, i: nat, next: seq<Skill>)
    requires k < |s| && i <= |prev| && SortByIncome(s[k + 1..]) == prev
    requires forall j :: 0 <= j < i ==> prev[j].income > s[k].income
    requires i == |prev| || prev[i].income <= s[k].income
    requires next == prev[..i] + [s[k]] + prev[i..]
    ensures SortByIncome(s[k..]) == next
  {
    assert s[k..] == [s[k]] + s[k + 1..];
    SortCons(s[k], s[k + 1..]);
    InsertAfterPrefix(s[k], prev[..i], prev[i..]);
    assert prev[..i] + prev[i..] == prev;
  }

  lemma {:induction false} InsertPermutes(x: Skill, t: seq<Skill>)
    ensures multiset(Insert(x, t)) == multiset(t) + multiset{x}
  {
    if !(t == [] || t[0].income <= x.income) {
      InsertPermutes(x, t[1..]);
      assert t == [t[0]] + t[1..];
    }
  }

  /** The ranked selection holds exactly the selected skills, each as often
      as it was selected. */
  lemma {:induction false} SortPermutes(s: seq<Skill>)
    ensures multiset(SortByIncome(s)) == multiset(s)
  {
    if s != [] {
      SortPermutes(s[1..]);
      InsertPermutes(s[0], SortByIncome(s[1..]));
      assert s == [s[0]] + s[1..];
    }
  }

  /** Putting in front an element that earns at least as much as the old
      head keeps a sequence non-increasing. */
  lemma ConsNonIncreasing(y: Skill, t: seq<Skill>)
    requires NonIncreasing(t)
    requires t == [] || y.income >= t[0].income
    ensures NonIncreasing([y] + t)
  {
    var r := [y] + t;
    forall i, j | 0 <= i < j < |r| ensures r[i].income >= r[j].income {
      assert r[j] == t[j - 1];
      if i == 0 {
        assert t[0].income >= t[j - 1].income;
      } else {
        assert r[i] == t[i - 1];
      }
    }
  }

  lemma {:induction false} InsertNonIncreasing(x: Skill, t: seq<Skill>)
    requires NonIncreasing(t)
    ensures NonIncreasing(Insert(x, t))
  {
    if t == [] || t[0].income <= x.income {
      ConsNonIncreasing(x, t);
    } else {
      var rest := Insert(x, t[1..]);
      TailNonIncreasing(t);
      InsertNonIncreasing(x, t[1..]);
      if t[1..] == [] || t[1..][0].income <= x.income {
        assert rest[0] == x;
      } else {
        assert rest[0] == t[1..][0] == t[1];
      }
      ConsNonIncreasing(t[0], rest);
    }
  }

  /** The ranked selection is non-increasing in income. */
  lemma {:induction false} SortNonIncreasing(s: seq<Skill>)
    ensures NonIncreasing(SortByIncome(s))
  {
    if s != [] {
      SortNonIncreasing(s[1..]);
      InsertNonIncreasing(s[0], SortByIncome(s[1..]));
    }
  }

  lemma OfIncomeCons(y: Skill, rest: seq<Skill>, v: int)
    ensures OfIncome([y] + rest, v) == (if y.income == v then [y] else []) + OfIncome(rest, v)
  {
    assert ([y] + rest)[0] == y && ([y] + rest)[1..] == rest;
  }

  /** Selecting by income distributes over concatenation. */
  lemma {:induction false} OfIncomeAppend(a: seq<Skill>, b: seq<Skill>, v: int)
    ensures OfIncome(a + b, v) == OfIncome(a, v) + OfIncome(b, v)
  {
    if a == [] {
      assert a + b == b;
    } else {
      assert (a + b)[0] == a[0] && (a + b)[1..] == a[1..] + b;
      OfIncomeAppend(a[1..], b, v);
    }
  }

  /** Inserting `x` puts it ahead of every element of equal income. */
  lemma {:induction false} InsertStable(x: Skill, t: seq<Skill>, v: int)
    ensures OfIncome(Insert(x, t), v) == (if x.income == v then [x] else []) + OfIncome(t, v)
  {
    if t == [] || t[0].income <= x.income {
      OfIncomeCons(x, t, v);
    } else {
      var rest := Insert(x, t[1..]);
      var tail := OfIncome(t[1..], v);
      InsertStable(x, t[1..], v);
      OfIncomeCons(t[0], rest, v);
      OfIncomeCons(t[0], t[1..], v);
      assert t == [t[0]] + t[1..];
      if x.income == v {
        assert t[0].income != v;
        assert OfIncome(rest, v) == [x] + tail;
        assert OfIncome(Insert(x, t), v) == [x] + tail;
        assert OfIncome(t, v) == tail;
      } else {
        assert OfIncome(rest, v) == tail;
      }
    }
  }

  /** The sort is stable: for every income, the skills earning it keep their
      relative order. */
  lemma {:induction false} SortStable(s: seq<Skill>, v: int)
    ensures OfIncome(SortByIncome(s), v) == OfIncome(s, v)
  {
    if s != [] {
      SortStable(s[1..], v);
      InsertStable(s[0], SortByIncome(s[1..]), v);
    }
  }

  lemma OfIncomeHead(s: seq<Skill>)
    requires s != []
    ensures OfIncome(s, s[0].income) == [s[0]] + OfIncome(s[1..], s[0].income)
  {
  }

  lemma OfIncomeSkipHead(s: seq<Skill>, v: int)
    requires s != [] && s[0].income != v
    ensures OfIncome(s, v) == OfIncome(s[1..], v)
  {
  }

  lemma TailNonIncreasing(s: seq<Skill>)
    requires s != [] && NonIncreasing(s)
    ensures NonIncreasing(s[1..])
  {
    forall i, j | 0 <= i < j < |s[1..]| ensures s[1..][i].income >= s[1..][j].income {
      assert s[1..][i] == s[i + 1] && s[1..][j] == s[j + 1];
    }
  }

  /** The head of a non-increasing sequence earns at least as much as the
      head of any sequence holding the same skills of that income. */
  lemma HeadEarnsMost(a: seq<Skill>, b: seq<Skill>)
    requires a != [] && b != [] && NonIncreasing(a)
    requires OfIncome(a, b[0].income) == OfIncome(b, b[0].income)
    ensures a[0].income >= b[0].income
  {
    OfIncomeHead(b);
    assert b[0] in OfIncome(b, b[0].income);
    assert b[0] in a;
    var k :| 0 <= k < |a| && a[k] == b[0];
  }

  /** Stability for every income at once. */
  lemma SortStableAll(s: seq<Skill>)
    ensures forall v :: OfIncome(SortByIncome(s), v) == OfIncome(s, v)
  {
    forall v ensures OfIncome(SortByIncome(s), v) == OfIncome(s, v) {
      SortStable(s, v);
    }
  }

  /** Two non-increasing sequences that agree on the skills of every income,
      in order, are the same sequence. */
  lemma {:induction false} StableOrderUnique(a: seq<Skill>, b: seq<Skill>)
    requires NonIncreasing(a) && NonIncreasing(b)
    requires forall v :: OfIncome(a, v) == OfIncome(b, v)
    ensures a == b
  {
    if a == [] {
      if b != [] {
        OfIncomeHead(b);
      }
    } else if b == [] {
      OfIncomeHead(a);
    } else {
      HeadEarnsMost(a, b);
      HeadEarnsMost(b, a);
      var w := a[0].income;
      OfIncomeHead(a);
      OfIncomeHead(b);
      var ta, tb := OfIncome(a[1..], w), OfIncome(b[1..], w);
      assert [a[0]] + ta == [b[0]] + tb;
      assert ([a[0]] + ta)[0] == a[0] && ([b[0]] + tb)[0] == b[0];
      assert ([a[0]] + ta)[1..] == ta && ([b[0]] + tb)[1..] == tb;
      TailNonIncreasing(a);
      TailNonIncreasing(b);
      forall v ensures OfIncome(a[1..], v) == OfIncome(b[1..], v) {
        if v != w {
          OfIncomeSkipHead(a, v);
          OfIncomeSkipHead(b, v);
        }
      }
      StableOrderUnique(a[1..], b[1..]);
      assert a == [a[0]] + a[1..] && b == [b[0]] + b[1..];
    }
  }

  /** `SortByIncome` is exactly the stable descending sort: a sequence is its
      result if and only if it is non-increasing in income and keeps, for
      every income, the skills earning it in their original order. */
  lemma SortByIncomeCharacterized(s: seq<Skill>, r: seq<Skill>)
    ensures r == SortByIncome(s) ==>
              NonIncreasing(r) && forall v :: OfIncome(r, v) == OfIncome(s, v)
    ensures (NonIncreasing(r) && forall v :: OfIncome(r, v) == OfIncome(s, v)) ==>
              r == SortByIncome(s)
  {
    var sorted := SortByIncome(s);
    SortNonIncreasing(s);
    SortStableAll(s);
    if NonIncreasing(r) && forall v :: OfIncome(r, v) == OfIncome(s, v) {
      StableOrderUnique(r, sorted);
    }
  }

  /** The catalog entries whose name is not among the selected ones, in
      catalog order. */
  function Unselected(catalog: seq<Skill>, selected: seq<Skill>): (r: seq<Skill>)
    ensures |r| <= |catalog|
  {
    if catalog == [] then []
    else
      (if NameIn(catalog[0].name, selected) then [] else [catalog[0]])
      + Unselected(catalog[1..], selected)
  }

  /** A skill is left unselected exactly when it is in the catalog and its
      name is not selected. */
  lemma {:induction false} UnselectedMembers(catalog: seq<Skill>, selected: seq<Skill>)
    ensures forall x :: x in Unselected(catalog, selected) <==> x in catalog && !NameIn(x.name, selected)
  {
    if catalog != [] {
      UnselectedMembers(catalog[1..], selected);
      assert catalog == [catalog[0]] + catalog[1..];
    }
  }

  /** Selected names that no catalog entry carries exclude nothing. */
  lemma {:induction false} UnselectedIgnores(catalog: seq<Skill>, selected: seq<Skill>, n: string)
    requires forall x :: x in catalog ==> x.name != n
    ensures Unselected(catalog, selected) == Unselected(catalog, WithoutName(selected, n))
  {
    if catalog != [] {
      assert catalog[0] in catalog;
      NameInWithout(catalog[0].name, selected, n);
      forall x | x in catalog[1..] ensures x.name != n {
        assert x in catalog;
      }
      UnselectedIgnores(catalog[1..], selected, n);
    }
  }

  /** The filter keeps catalog order: filtering a concatenation is filtering
      each part, the first part's survivors first. */
  lemma {:induction false} UnselectedAppend(a: seq<Skill>, b: seq<Skill>, selected: seq<Skill>)
    ensures Unselected(a + b, selected) == Unselected(a, selected) + Unselected(b, selected)
  {
    if a == [] {
      assert a + b == b;
    } else {
      assert (a + b)[0] == a[0] && (a + b)[1..] == a[1..] + b;
      UnselectedAppend(a[1..], b, selected);
    }
  }

  /** Each selected name excludes at most one entry of a catalog whose names
      are distinct. */
  lemma {:induction false} UnselectedAtLeast(catalog: seq<Skill>, selected: seq<Skill>)
    requires DistinctNames(catalog)
    ensures |Unselected(catalog, selected)| >= |catalog| - |selected|
    decreases |catalog|
  {
    if catalog != [] {
      var n := catalog[0].name;
      TailDistinct(catalog);
      if !NameIn(n, selected) {
        UnselectedAtLeast(catalog[1..], selected);
      } else {
        var rest := catalog[1..];
        forall x | x in rest ensures x.name != n {
          var k :| 0 <= k < |rest| && rest[k] == x;
          assert catalog[k + 1] == x;
        }
        UnselectedIgnores(rest, selected, n);
        NameCountZero(n, selected);
        WithoutNameLength(selected, n);
        UnselectedAtLeast(rest, WithoutName(selected, n));
      }
    }
  }

  lemma UnselectedNil(selected: seq<Skill>)
    ensures Unselected([], selected) == []
  {
  }

  /** One step of the filter over the suffixes of `c` and `u`: an entry whose
      name is not selected is kept ahead of what the rest of `c` yields. */
  lemma UnselectedKeep(c: seq<Skill>, k: nat, selected: seq<Skill>, u: seq<Skill>, j: nat)
    requires k < |c| && j < |u| && c[k] == u[j] && !NameIn(c[k].name, selected)
    requires Unselected(c[k + 1..], selected) == u[j + 1..]
    ensures Unselected(c[k..], selected) == u[j..]
  {
    assert c[k..][0] == c[k] && c[k..][1..] == c[k + 1..];
    assert u[j..] == [u[j]] + u[j + 1..];
  }

  /** One step of the filter over the suffixes of `c`: an entry whose name is
      selected is dropped. */
  lemma UnselectedDrop(c: seq<Skill>, k: nat, selected: seq<Skill>, u: seq<Skill>, j: nat)
    requires k < |c| && j <= |u| && NameIn(c[k].name, selected)
    requires Unselected(c[k + 1..], selected) == u[j..]
    ensures Unselected(c[k..], selected) == u[j..]
  {
    assert c[k..][0] == c[k] && c[k..][1..] == c[k + 1..];
  }

  /** The recommendations: the unselected catalog entries ranked by income,
      cut to the first three. */
  function Recommended(catalog: seq<Skill>, selected: seq<Skill>): (r: seq<Skill>)
    ensures |r| <= RecommendCount
  {
    var ranked := SortByIncome(Unselected(catalog, selected));
    if |ranked| <= RecommendCount then ranked else ranked[..RecommendCount]
  }

  /** The ranked unselected entries; the recommendations are its first three. */
  lemma RankedUnselected(catalog: seq<Skill>, selected: seq<Skill>)
    ensures var ranked := SortByIncome(Unselected(catalog, selected));
            multiset(ranked) == multiset(Unselected(catalog, selected)) &&
            |ranked| == |Unselected(catalog, selected)| &&
            NonIncreasing(ranked) &&
            Recommended(catalog, selected) == ranked[..|Recommended(catalog, selected)|]
  {
    var u := Unselected(catalog, selected);
    SortNonIncreasing(u);
    SortPermutes(u);
    assert |multiset(SortByIncome(u))| == |multiset(u)|;
  }

  /** There are three recommendations, or fewer when fewer skills remain
      unselected. */
  lemma RecommendedLength(catalog: seq<Skill>, selected: seq<Skill>)
    ensures var n := |Unselected(catalog, selected)|;
            |Recommended(catalog, selected)| == if n < RecommendCount then n else RecommendCount
  {
    RankedUnselected(catalog, selected);
  }

  /** Every recommendation comes from the catalog and is not selected. */
  lemma RecommendedUnselected(catalog: seq<Skill>, selected: seq<Skill>)
    ensures forall x :: x in Recommended(catalog, selected) ==>
              x in catalog && !NameIn(x.name, selected)
  {
    var ranked := SortByIncome(Unselected(catalog, selected));
    RankedUnselected(catalog, selected);
    UnselectedMembers(catalog, selected);
    forall x | x in Recommended(catalog, selected) ensures x in catalog && !NameIn(x.name, selected) {
      assert x in ranked;
      assert x in multiset(ranked);
    }
  }

  /** The recommendations are listed highest income first. */
  lemma RecommendedNonIncreasing(catalog: seq<Skill>, selected: seq<Skill>)
    ensures NonIncreasing(Recommended(catalog, selected))
  {
    RankedUnselected(catalog, selected);
  }

  /** No unselected skill that is left out of the recommendations earns more
      than any recommended one: they are the best-paid of the rest. */
  lemma RecommendedBest(catalog: seq<Skill>, selected: seq<Skill>, x: Skill)
    requires x in Unselected(catalog, selected)
    requires x !in Recommended(catalog, selected)
    ensures forall i :: 0 <= i < |Recommended(catalog, selected)| ==>
              Recommended(catalog, selected)[i].income >= x.income
  {
    var u := Unselected(catalog, selected);
    var ranked := SortByIncome(u);
    var r := Recommended(catalog, selected);
    RankedUnselected(catalog, selected);
    assert x in multiset(ranked);
    var k :| 0 <= k < |ranked| && ranked[k] == x;
    assert k >= |r|;
    forall i | 0 <= i < |r| ensures r[i].income >= x.income {
      assert r[i] == ranked[i];
    }
  }

  /** `RecommendedBest` for every left-out unselected catalog entry and every
      recommendation at once. */
  lemma RecommendedBestAll(catalog: seq<Skill>, selected: seq<Skill>)
    ensures forall x, i ::
              x in catalog && !NameIn(x.name, selected) &&
              x !in Recommended(catalog, selected) &&
              0 <= i < |Recommended(catalog, selected)| ==>
                Recommended(catalog, selected)[i].income >= x.income
  {
    UnselectedMembers(catalog, selected);
    forall x | x in catalog && !NameIn(x.name, selected) && x !in Recommended(catalog, selected)
      ensures forall i :: 0 <= i < |Recommended(catalog, selected)| ==>
                Recommended(catalog, selected)[i].income >= x.income
    {
      RecommendedBest(catalog, selected, x);
    }
  }

  /** The cut to three keeps ties in catalog order: for every income, the
      recommendations of that income are the first ones of that income among
      the unselected catalog entries. */
  lemma RecommendedStable(catalog: seq<Skill>, selected: seq<Skill>)
    ensures forall v ::
              var r := OfIncome(Recommended(catalog, selected), v);
              var u := OfIncome(Unselected(catalog, selected), v);
              |r| <= |u| && r == u[..|r|]
  {
    var un := Unselected(catalog, selected);
    var ranked := SortByIncome(un);
    var rec := Recommended(catalog, selected);
    RankedUnselected(catalog, selected);
    assert ranked == rec + ranked[|rec|..];
    forall v ensures var r := OfIncome(rec, v);
                     var u := OfIncome(un, v);
                     |r| <= |u| && r == u[..|r|]
    {
      SortStable(un, v);
      OfIncomeAppend(rec, ranked[|rec|..], v);
    }
  }
}
