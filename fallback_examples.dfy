/** Worked cases of the fallback engine: a concrete profile and the ranking
    the scoring rules give it. */
module FallbackExamples {
  import opened Text
  import opened Seqs
  import opened Sorting
  import opened Types
  import opened Catalog
  import opened Fallback

  /** Skills Python rated 5 and React rated 1, and the interest "AI/ML". */
  predicate PythonReactAiml(data: AssessmentData)
  {
    data.skills == [SkillRating("Python", 5), SkillRating("React", 1)] && data.interests == ["AI/ML"]
  }

  /** The score of a path for that profile, from which of the two skills
      match its keywords and whether "AI/ML" is one of its tags. */
  lemma PythonReactAimlScore(data: AssessmentData, path: CareerPath)
    requires PythonReactAiml(data)
    ensures PathScore(data, path)
         == (if KeywordMatch(path.keywords, "Python") then 25 else 0)
          + (if KeywordMatch(path.keywords, "React") then 5 else 0)
          + (if "AI/ML" in path.interests then 20 else 0)
  {
    var kws := path.keywords;
    var s := data.skills;
    assert s[..1] == [SkillRating("Python", 5)];
    assert SkillPoints(s, kws) == SkillPoints(s[..1], kws) + (if KeywordMatch(kws, "React") then 5 else 0);
    assert SkillPoints(s[..1], kws) == SkillPoints([], kws) + (if KeywordMatch(kws, "Python") then 25 else 0);
    assert InterestPoints(data.interests, path.interests)
        == InterestPoints([], path.interests) + (if "AI/ML" in path.interests then 20 else 0);
  }

  /** Which catalogue paths list Python, and which React, as a keyword,
      ignoring case, one path at a time. */
  lemma MatchesDataScientist()
    ensures KeywordMatch(CareerPaths[0].keywords, "Python")
    ensures !KeywordMatch(CareerPaths[0].keywords, "React")
  {
    assert Lower(CareerPaths[0].keywords[0]) == Lower("Python");
    assert Lower("NumPy")[0] == LowerChar('N');
  }

  lemma MatchesFrontend()
    ensures !KeywordMatch(CareerPaths[1].keywords, "Python")
    ensures KeywordMatch(CareerPaths[1].keywords, "React")
  {
    assert Lower(CareerPaths[1].keywords[0]) == Lower("React");
    assert Lower("Figma")[0] == LowerChar('F');
    assert Lower("Redux")[0] == LowerChar('R');
  }

  lemma MatchesBackend()
    ensures KeywordMatch(CareerPaths[2].keywords, "Python")
    ensures !KeywordMatch(CareerPaths[2].keywords, "React")
  {
    assert Lower(CareerPaths[2].keywords[1]) == Lower("Python");
    assert Lower("NoSQL")[0] == LowerChar('N');
  }

  lemma MatchesFullStack()
    ensures !KeywordMatch(CareerPaths[3].keywords, "Python")
    ensures KeywordMatch(CareerPaths[3].keywords, "React")
  {
    assert Lower(CareerPaths[3].keywords[0]) == Lower("React");
    assert Lower("Mongo")[0] == LowerChar('M');
  }

  lemma MatchesDevOps()
    ensures !KeywordMatch(CareerPaths[4].keywords, "Python")
    ensures !KeywordMatch(CareerPaths[4].keywords, "React")
  {
    assert Lower("Docker")[0] == LowerChar('D');
    assert Lower("Linux")[0] == LowerChar('L');
    assert Lower("CI/CD")[0] == LowerChar('C');
  }

  lemma MatchesCybersecurity()
    ensures KeywordMatch(CareerPaths[5].keywords, "Python")
    ensures !KeywordMatch(CareerPaths[5].keywords, "React")
  {
    assert Lower(CareerPaths[5].keywords[4]) == Lower("Python");
    assert Lower("Linux")[0] == LowerChar('L');
  }

  lemma MatchesAimlEngineer()
    ensures KeywordMatch(CareerPaths[6].keywords, "Python")
    ensures !KeywordMatch(CareerPaths[6].keywords, "React")
  {
    assert Lower(CareerPaths[6].keywords[0]) == Lower("Python");
  }

  lemma MatchesCloudArchitect()
    ensures !KeywordMatch(CareerPaths[7].keywords, "Python")
    ensures !KeywordMatch(CareerPaths[7].keywords, "React")
  {
    assert Lower("Azure")[0] == LowerChar('A');
  }

  lemma MatchesMobileDeveloper()
    ensures !KeywordMatch(CareerPaths[8].keywords, "Python")
    ensures !KeywordMatch(CareerPaths[8].keywords, "React")
  {
  }

  /** The score of each path for that profile. */
  lemma ScoreDataScientist(data: AssessmentData)
    requires PythonReactAiml(data)
    ensures PathScore(data, CareerPaths[0]) == 45
  {
    MatchesDataScientist();
    PythonReactAimlScore(data, CareerPaths[0]);
  }

  lemma ScoreFrontend(data: AssessmentData)
    requires PythonReactAiml(data)
    ensures PathScore(data, CareerPaths[1]) == 5
  {
    MatchesFrontend();
    PythonReactAimlScore(data, CareerPaths[1]);
  }

  lemma ScoreBackend(data: AssessmentData)
    requires PythonReactAiml(data)
    ensures PathScore(data, CareerPaths[2]) == 25
  {
    MatchesBackend();
    PythonReactAimlScore(data, CareerPaths[2]);
  }

  lemma ScoreFullStack(data: AssessmentData)
    requires PythonReactAiml(data)
    ensures PathScore(data, CareerPaths[3]) == 5
  {
    MatchesFullStack();
    PythonReactAimlScore(data, CareerPaths[3]);
  }

  lemma ScoreDevOps(data: AssessmentData)
    requires PythonReactAiml(data)
    ensures PathScore(data, CareerPaths[4]) == 0
  {
    MatchesDevOps();
    PythonReactAimlScore(data, CareerPaths[4]);
  }

  lemma ScoreCybersecurity(data: AssessmentData)
    requires PythonReactAiml(data)
    ensures PathScore(data, CareerPaths[5]) == 25
  {
    MatchesCybersecurity();
    PythonReactAimlScore(data, CareerPaths[5]);
  }

  lemma ScoreAimlEngineer(data: AssessmentData)
    requires PythonReactAiml(data)
    ensures PathScore(data, CareerPaths[6]) == 45
  {
    MatchesAimlEngineer();
    PythonReactAimlScore(data, CareerPaths[6]);
  }

  lemma ScoreCloudArchitect(data: AssessmentData)
    requires PythonReactAiml(data)
    ensures PathScore(data, CareerPaths[7]) == 0
  {
    MatchesCloudArchitect();
    PythonReactAimlScore(data, CareerPaths[7]);
  }

  lemma ScoreMobileDeveloper(data: AssessmentData)
    requires PythonReactAiml(data)
    ensures PathScore(data, CareerPaths[8]) == 0
  {
    MatchesMobileDeveloper();
    PythonReactAimlScore(data, CareerPaths[8]);
  }

  /** Nine scores 45, 5, 25, 5, 0, 25, 45, 0, 0, in that order. */
  predicate ProfileScores(c: seq<ScoredPath>)
  {
    |c| == 9 && c[0].score == 45 && c[1].score == 5 && c[2].score == 25 && c[3].score == 5
    && c[4].score == 0 && c[5].score == 25 && c[6].score == 45 && c[7].score == 0 && c[8].score == 0
  }

  /** The scores of that profile, in catalogue order. */
  lemma PythonReactAimlScores(data: AssessmentData)
    requires PythonReactAiml(data)
    ensures ProfileScores(ScoreCatalog(data))
  {
    ScoreDataScientist(data);
    ScoreFrontend(data);
    ScoreBackend(data);
    ScoreFullStack(data);
    ScoreDevOps(data);
    ScoreCybersecurity(data);
    ScoreAimlEngineer(data);
    ScoreCloudArchitect(data);
    ScoreMobileDeveloper(data);
  }

  lemma FirstOf45(c: seq<ScoredPath>)
    requires ProfileScores(c)
    ensures Filter(HasKey(ScoreOf, 45), c) == [c[0]] + Filter(HasKey(ScoreOf, 45), c[1..])
  {
    FilterFirst(HasKey(ScoreOf, 45), c, 0);
  }

  lemma SecondOf45(c: seq<ScoredPath>)
    requires ProfileScores(c)
    ensures Filter(HasKey(ScoreOf, 45), c[1..]) == [c[6]] + Filter(HasKey(ScoreOf, 45), c[7..])
  {
    var d := c[1..];
    var p := HasKey(ScoreOf, 45);
    assert d[5] == c[6] && d[6..] == c[7..];
    assert !p(d[0]) && !p(d[1]) && !p(d[2]) && !p(d[3]) && !p(d[4]);
    FilterFirst(p, d, 5);
  }

  lemma NoMoreOf45(c: seq<ScoredPath>)
    requires ProfileScores(c)
    ensures Filter(HasKey(ScoreOf, 45), c[7..]) == []
  {
    assert c[7..] == [c[7], c[8]];
    assert forall x :: x in c[7..] ==> !HasKey(ScoreOf, 45)(x);
    FilterNone(HasKey(ScoreOf, 45), c[7..]);
  }

  /** In catalogue order the 45s are the paths at 0 and 6, and the first 25
      is the path at 2. */
  lemma ProfileScoreGroups(c: seq<ScoredPath>)
    requires ProfileScores(c)
    ensures Filter(HasKey(ScoreOf, 45), c) == [c[0], c[6]]
    ensures |Filter(HasKey(ScoreOf, 25), c)| > 0 && Filter(HasKey(ScoreOf, 25), c)[0] == c[2]
  {
    FirstOf45(c);
    SecondOf45(c);
    NoMoreOf45(c);
    FilterFirst(HasKey(ScoreOf, 25), c, 2);
  }

  /** In a non-increasing sequence bounded by `k`, the first two entries are
      the two elements with key `k`, when there are exactly two. */
  lemma {:induction false} LeadingPair<T(!new)>(r: seq<T>, key: T -> int, k: int, a: T, b: T)
    requires NonIncreasing(r, key)
    requires forall x :: x in r ==> key(x) <= k
    requires Filter(HasKey(key, k), r) == [a, b]
    ensures |r| >= 2 && r[0] == a && r[1] == b
    ensures forall x :: x in r[2..] ==> key(x) < k
  {
    var p := HasKey(key, k);
    assert a in Filter(p, r);
    var m0 :| 0 <= m0 < |r| && r[m0] == a;
    assert key(r[0]) >= key(r[m0]);
    assert key(r[0]) == k;
    FilterFirst(p, r, 0);
    assert [a, b] == [r[0]] + Filter(p, r[1..]);
    assert [a, b][1..] == [b];
    assert Filter(p, r[1..]) == [b];
    assert b in Filter(p, r[1..]);
    var m1 :| 0 <= m1 < |r| - 1 && r[1..][m1] == b;
    assert key(r[1]) >= key(r[m1 + 1]);
    FilterFirst(p, r[1..], 0);
    assert r[1..][1..] == r[2..];
    assert Filter(p, r[2..]) == [];
  }

  /** No score above 45, and none strictly between 25 and 45. */
  lemma ProfileScoreBounds(c: seq<ScoredPath>)
    requires ProfileScores(c)
    ensures forall x :: x in multiset(c) ==> x.score <= 45 && (x.score == 45 || x.score <= 25)
  {
    forall x | x in multiset(c) ensures x.score <= 45 && (x.score == 45 || x.score <= 25) {
      assert x in c;
      var i :| 0 <= i < 9 && c[i] == x;
      assert i == 0 || i == 6 || c[i].score <= 25;
    }
  }

  /** After two leading 45s, the first entry scoring 25 comes next when
      nothing scores strictly between 25 and 45 and some entry scores 25. */
  lemma {:induction false} ThirdPlace(r: seq<ScoredPath>, y: ScoredPath)
    requires NonIncreasing(r, ScoreOf) && |r| >= 3
    requires forall x :: x in r[2..] ==> x.score < 45
    requires forall x :: x in r ==> x.score == 45 || x.score <= 25
    requires y.score == 25 && |Filter(HasKey(ScoreOf, 25), r)| > 0 && Filter(HasKey(ScoreOf, 25), r)[0] == y
    requires r[0].score == 45 && r[1].score == 45
    ensures r[2] == y
  {
    var p := HasKey(ScoreOf, 25);
    assert y in Filter(p, r);
    assert y in Filter(p, r);
    var m :| 0 <= m < |r| && r[m] == y;
    assert m >= 2;
    assert r[2].score >= r[m].score;
    assert r[2] in r[2..];
    FilterFirst(p, r, 2);
    assert Filter(p, r)[0] == r[2];
  }

  /** Where the nine scores of that profile put the first three paths in
      the stable descending sort: the two 45s in catalogue order (Data
      Scientist, then AI/ML Engineer), then the first 25 (Backend Engineer). */
  lemma {:induction false} TopThree(c: seq<ScoredPath>)
    requires ProfileScores(c)
    ensures SortDesc(c, ScoreOf)[..3] == [c[0], c[6], c[2]]
  {
    var r := SortDesc(c, ScoreOf);
    SortStable(c, ScoreOf, 45);
    SortStable(c, ScoreOf, 25);
    TopThreeOf(r, c);
  }

  /** A permutation of those nine scores has the same bounds. */
  lemma PermutedBounds(r: seq<ScoredPath>, c: seq<ScoredPath>)
    requires ProfileScores(c) && multiset(r) == multiset(c)
    ensures |r| == 9
    ensures forall x :: x in r ==> ScoreOf(x) <= 45 && (x.score == 45 || x.score <= 25)
  {
    ProfileScoreBounds(c);
    assert |r| == |multiset(r)|;
    forall x | x in r ensures ScoreOf(x) <= 45 && (x.score == 45 || x.score <= 25) {
      assert x in multiset(c);
    }
  }

  /** The first three entries of a non-increasing sequence whose only 45s
      are `a` then `b`, with nothing above 45 or strictly between 25 and 45,
      and whose first 25 is `y`. */
  lemma {:induction false} LeadingThree(r: seq<ScoredPath>, a: ScoredPath, b: ScoredPath, y: ScoredPath)
    requires NonIncreasing(r, ScoreOf)
    requires forall x :: x in r ==> ScoreOf(x) <= 45 && (x.score == 45 || x.score <= 25)
    requires Filter(HasKey(ScoreOf, 45), r) == [a, b]
    requires y.score == 25 && |Filter(HasKey(ScoreOf, 25), r)| > 0 && Filter(HasKey(ScoreOf, 25), r)[0] == y
    ensures |r| >= 3 && r[..3] == [a, b, y]
  {
    LeadingPair(r, ScoreOf, 45, a, b);
    assert a in Filter(HasKey(ScoreOf, 45), r);
    assert b in Filter(HasKey(ScoreOf, 45), r);
    assert |r| >= 3 by {
      assert y in Filter(HasKey(ScoreOf, 25), r);
      assert y in r && y != r[0] && y != r[1];
    }
    ThirdPlace(r, y);
    assert r[..3] == [r[0], r[1], r[2]];
  }

  lemma {:induction false} TopThreeOf(r: seq<ScoredPath>, c: seq<ScoredPath>)
    requires ProfileScores(c)
    requires NonIncreasing(r, ScoreOf) && multiset(r) == multiset(c)
    requires Filter(HasKey(ScoreOf, 45), r) == Filter(HasKey(ScoreOf, 45), c)
    requires Filter(HasKey(ScoreOf, 25), r) == Filter(HasKey(ScoreOf, 25), c)
    ensures |r| >= 3 && r[..3] == [c[0], c[6], c[2]]
  {
    ProfileScoreGroups(c);
    PermutedBounds(r, c);
    LeadingThree(r, c[0], c[6], c[2]);
  }

  /** For a path that lists Python but not React, the strengths of that
      profile are just Python. */
  lemma HaveOnlyPython(data: AssessmentData, keywords: seq<string>)
    requires PythonReactAiml(data)
    requires KeywordMatch(keywords, "Python") && !KeywordMatch(keywords, "React")
    ensures HaveNames(data.skills, keywords) == ["Python"]
  {
    assert data.skills[1..] == [SkillRating("React", 1)];
    assert data.skills[1..][1..] == [];
    assert Filter(Strong(keywords), data.skills) == [SkillRating("Python", 5)];
  }

  /** The first three entries of the ranking for that profile. */
  lemma RankedPythonReactAiml(data: AssessmentData)
    requires PythonReactAiml(data)
    ensures Ranked(data)[0].path == CareerPaths[0]
    ensures Ranked(data)[1].path == CareerPaths[6]
    ensures Ranked(data)[2].path == CareerPaths[2]
  {
    PythonReactAimlScores(data);
    TopThree(ScoreCatalog(data));
    assert Ranked(data)[..3] == [ScoreCatalog(data)[0], ScoreCatalog(data)[6], ScoreCatalog(data)[2]];
  }

  /** The roles of the first three ranks for that profile. */
  lemma TopRolesPythonReactAiml(data: AssessmentData)
    requires PythonReactAiml(data)
    ensures Ranked(data)[0].path.role == "Data Scientist"
    ensures Ranked(data)[1].path.role == "AI/ML Engineer"
    ensures Ranked(data)[2].path.role == "Backend Engineer"
  {
    RankedPythonReactAiml(data);
  }

  /** Each of the first three paths for that profile lists Python but not
      React as a keyword. */
  lemma TopKeywordsPythonReactAiml(data: AssessmentData, i: int)
    requires PythonReactAiml(data) && 0 <= i < 3
    ensures KeywordMatch(Ranked(data)[i].path.keywords, "Python")
    ensures !KeywordMatch(Ranked(data)[i].path.keywords, "React")
  {
    RankedPythonReactAiml(data);
    if i == 0 {
      MatchesDataScientist();
    } else if i == 1 {
      MatchesAimlEngineer();
    } else {
      MatchesBackend();
    }
  }

  /** React, rated 1, is no Data Scientist keyword, so the Data Scientist
      gaps of that profile do not include it. */
  lemma DataScientistGaps(data: AssessmentData)
    requires PythonReactAiml(data)
    ensures "React" !in MissingNames(data.skills, CareerPaths[0])
  {
    MatchesDataScientist();
    var path := CareerPaths[0];
    assert path.missing == ["Big Data Tools (Spark)", "Cloud Data Warehousing"];
    MissingExcludes(data.skills, path, "React");
  }

  /** The Data Scientist recommendation for that profile does not list React
      among the gaps. */
  lemma DataScientistGapsWithoutReact(data: AssessmentData, jitter: seq<int>)
    requires ValidJitter(jitter) && PythonReactAiml(data)
    ensures "React" !in FallbackSpec(data, jitter)[0].skillsMissing
  {
    RankedPythonReactAiml(data);
    FallbackEntry(data, jitter, 0);
    DataScientistGaps(data);
  }

  /** For that profile the fallback recommends Data Scientist, AI/ML
      Engineer and Backend Engineer, in that order, each listing exactly
      Python as a strength. */
  lemma FallbackPythonReactAiml(data: AssessmentData, jitter: seq<int>)
    requires ValidJitter(jitter) && PythonReactAiml(data)
    ensures var recs := FallbackSpec(data, jitter);
            && recs[0].roleName == "Data Scientist"
            && recs[1].roleName == "AI/ML Engineer"
            && recs[2].roleName == "Backend Engineer"
            && forall i :: 0 <= i < 3 ==> recs[i].skillsHave == ["Python"]
  {
    TopRolesPythonReactAiml(data);
    forall i | 0 <= i < 3
      ensures FallbackSpec(data, jitter)[i].roleName == Ranked(data)[i].path.role
      ensures FallbackSpec(data, jitter)[i].skillsHave == ["Python"]
    {
      FallbackEntry(data, jitter, i);
      TopKeywordsPythonReactAiml(data, i);
      HaveOnlyPython(data, Ranked(data)[i].path.keywords);
    }
  }
}
