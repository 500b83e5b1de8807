/** The skill entity, the fixed catalog of skills, and the name-based
    membership and removal used by the selection tracker. */
module Skills {

  /** A skill: its name (the key for equality in every check), its average
      annual income and its growth rate in percent. */
  datatype Skill = Skill(name: string, income: int, growth: int)

  /** The most skills a selection may hold. */
  const MaxSkills: nat := 5

  const ArtificialIntelligence := Skill("Artificial Intelligence", 120000, 23)
  const MachineLearning := Skill("Machine Learning", 110000, 21)
  const DeepLearning := Skill("Deep Learning", 115000, 22)
  const ComputerVision := Skill("Computer Vision", 125000, 24)
  const NaturalLanguageProcessing := Skill("Natural Language Processing", 118000, 20)
  const DataScience := Skill("Data Science", 112000, 19)
  const Python := Skill("Python", 105000, 15)
  const JavaScript := Skill("JavaScript", 100000, 12)
  const React := Skill("React", 108000, 14)
  const NodeJs := Skill("Node.js", 102000, 13)
  const CloudComputing := Skill("Cloud Computing", 115000, 18)
  const DevOps := Skill("DevOps", 110000, 17)
  const Cybersecurity := Skill("Cybersecurity", 118000, 20)
  const Blockchain := Skill("Blockchain", 122000, 25)
  const MobileDevelopment := Skill("Mobile Development", 105000, 16)

  /** The static skill database, in its declared order. */
  const Catalog: seq<Skill> := [
    ArtificialIntelligence, MachineLearning, DeepLearning, ComputerVision,
    NaturalLanguageProcessing, DataScience, Python, JavaScript, React, NodeJs,
    CloudComputing, DevOps, Cybersecurity, Blockchain, MobileDevelopment
  ]

  /** Some element of `s` carries the name `name`. */
  predicate NameIn(name: string, s: seq<Skill>)
  {
    exists i :: 0 <= i < |s| && s[i].name == name
  }

  /** No two elements of `s` share a name. */
  predicate DistinctNames(s: seq<Skill>)
  {
    forall i, j :: 0 <= i < j < |s| ==> s[i].name != s[j].name
  }

  function NameCount(name: string, s: seq<Skill>): nat
  {
    if s == [] then 0
    else (if s[0].name == name then 1 else 0) + NameCount(name, s[1..])
  }

  /** The elements of `s` whose name differs from `name`, in their order. */
  function WithoutName(s: seq<Skill>, name: string): (r: seq<Skill>)
    ensures |r| <= |s|
  {
    if s == [] then []
    else if s[0].name == name then WithoutName(s[1..], name)
    else [s[0]] + WithoutName(s[1..], name)
  }

  /** Removal by name keeps exactly the elements carrying another name. */
  lemma {:induction false} WithoutNameMembers(s: seq<Skill>, name: string)
    ensures forall x :: x in WithoutName(s, name) <==> x in s && x.name != name
  {
    if s != [] {
      WithoutNameMembers(s[1..], name);
      assert s == [s[0]] + s[1..];
    }
  }

  /** After removal by name, that name is absent. */
  lemma WithoutNameAbsent(s: seq<Skill>, name: string)
    ensures !NameIn(name, WithoutName(s, name))
  {
    var r := WithoutName(s, name);
    WithoutNameMembers(s, name);
    forall i | 0 <= i < |r| ensures r[i].name != name {
      assert r[i] in r;
    }
  }

  /** `NameCount` counts exactly the positions carrying the name; it is zero
      precisely when the name is absent. */
  lemma {:induction false} NameCountZero(name: string, s: seq<Skill>)
    ensures NameCount(name, s) == 0 <==> !NameIn(name, s)
  {
    if s != [] {
      NameCountZero(name, s[1..]);
      if s[0].name != name && NameIn(name, s) {
        var i :| 0 <= i < |s| && s[i].name == name;
        assert s[1..][i - 1].name == name;
      }
      if NameIn(name, s[1..]) {
        var i :| 0 <= i < |s[1..]| && s[1..][i].name == name;
        assert s[i + 1].name == name;
      }
    }
  }

  /** In a selection with distinct names, a name occurs at most once. */
  lemma {:induction false} DistinctNameCount(name: string, s: seq<Skill>)
    requires DistinctNames(s)
    ensures NameCount(name, s) <= 1
    ensures NameCount(name, s) == 1 <==> NameIn(name, s)
  {
    NameCountZero(name, s);
    if s != [] {
      TailDistinct(s);
      DistinctNameCount(name, s[1..]);
      NameCountZero(name, s[1..]);
    }
  }

  /** Removing by name drops exactly the elements carrying that name and
      keeps the others in order: the length falls by the number of them. */
  lemma {:induction false} WithoutNameLength(s: seq<Skill>, name: string)
    ensures |WithoutName(s, name)| == |s| - NameCount(name, s)
  {
    if s != [] {
      WithoutNameLength(s[1..], name);
    }
  }

  /** Removing a name that is absent leaves the sequence as it was. */
  lemma {:induction false} WithoutAbsentName(s: seq<Skill>, name: string)
    requires !NameIn(name, s)
    ensures WithoutName(s, name) == s
  {
    if s != [] {
      assert s[0].name != name;
      WithoutAbsentName(s[1..], name);
      assert [s[0]] + s[1..] == s;
    }
  }

  /** Removal by name keeps the relative order of what it keeps: filtering a
      concatenation is filtering each part, the first part's survivors first. */
  lemma {:induction false} WithoutNameAppend(a: seq<Skill>, b: seq<Skill>, name: string)
    ensures WithoutName(a + b, name) == WithoutName(a, name) + WithoutName(b, name)
  {
    if a == [] {
      assert a + b == b;
    } else {
      assert (a + b)[0] == a[0] && (a + b)[1..] == a[1..] + b;
      WithoutNameAppend(a[1..], b, name);
    }
  }

  /** Removing by name keeps the names pairwise distinct. */
  lemma {:induction false} WithoutNameDistinct(s: seq<Skill>, name: string)
    requires DistinctNames(s)
    ensures DistinctNames(WithoutName(s, name))
  {
    if s != [] {
      TailDistinct(s);
      WithoutNameDistinct(s[1..], name);
      if s[0].name != name {
        var rest := WithoutName(s[1..], name);
        WithoutNameMembers(s[1..], name);
        forall j | 0 <= j < |rest| ensures rest[j].name != s[0].name {
          assert rest[j] in s[1..];
          var k :| 0 <= k < |s[1..]| && s[1..][k] == rest[j];
          assert s[k + 1] == rest[j];
        }
        assert WithoutName(s, name) == [s[0]] + rest;
      }
    }
  }

  lemma TailDistinct(s: seq<Skill>)
    requires s != [] && DistinctNames(s)
    ensures DistinctNames(s[1..])
  {
    forall i, j | 0 <= i < j < |s[1..]| ensures s[1..][i].name != s[1..][j].name {
      assert s[1..][i] == s[i + 1] && s[1..][j] == s[j + 1];
    }
  }

  /** The catalog names fifteen different skills. */
  lemma CatalogDistinct()
    ensures |Catalog| == 15 && DistinctNames(Catalog)
  {
  }

  /** Removing the name `n` does not change whether any other name is
      present. */
  lemma NameInWithout(m: string, s: seq<Skill>, n: string)
    requires m != n
    ensures NameIn(m, WithoutName(s, n)) <==> NameIn(m, s)
  {
    var t := WithoutName(s, n);
    WithoutNameMembers(s, n);
    if NameIn(m, s) {
      var i :| 0 <= i < |s| && s[i].name == m;
      assert s[i] in t;
      var j :| 0 <= j < |t| && t[j] == s[i];
    }
    if NameIn(m, t) {
      var j :| 0 <= j < |t| && t[j].name == m;
      assert t[j] in s;
      var i :| 0 <= i < |s| && s[i] == t[j];
    }
  }

  /** In a selection with distinct names, no element's name occurs before it. */
  lemma DistinctPrefixFresh(s: seq<Skill>, k: nat)
    requires DistinctNames(s) && k < |s|
    ensures !NameIn(s[k].name, s[..k])
  {
  }

  /** Appending a skill whose name is absent keeps the names distinct. */
  lemma AppendDistinct(s: seq<Skill>, x: Skill)
    requires DistinctNames(s) && !NameIn(x.name, s)
    ensures DistinctNames(s + [x])
  {
    var t := s + [x];
    forall i, j | 0 <= i < j < |t| ensures t[i].name != t[j].name {
      if j == |s| {
        assert t[i] == s[i];
      } else {
        assert t[i] == s[i] && t[j] == s[j];
      }
    }
  }
}
