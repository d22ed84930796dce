/** The deterministic fallback recommendation engine of services/gemini.ts:
    score every catalogue path against the profile, keep the three best by a
    stable descending sort, and fill each recommendation from templates. */
module Fallback {
  import opened Text
  import opened Seqs
  import opened Sorting
  import opened Types
  import opened Catalog

  /** Some keyword equals `name` ignoring case. */
  predicate KeywordMatch(keywords: seq<string>, name: string)
  {
    exists k | k in keywords :: Lower(k) == Lower(name)
  }

  /** Points from skills: 5 per rating level of every profile skill that
      matches a keyword. */
  function SkillPoints(skills: seq<SkillRating>, keywords: seq<string>): int
  {
    if skills == [] then 0
    else
      var s := skills[|skills| - 1];
      SkillPoints(skills[..|skills| - 1], keywords) + (if KeywordMatch(keywords, s.name) then s.rating * 5 else 0)
  }

  /** Names of the profile skills that match a keyword, in profile order. */
  function MatchedNames(skills: seq<SkillRating>, keywords: seq<string>): (r: seq<string>)
    ensures forall n :: n in r <==> exists s :: s in skills && s.name == n && KeywordMatch(keywords, n)
  {
    if skills == [] then []
    else
      var pre := skills[..|skills| - 1];
      var s := skills[|skills| - 1];
      assert skills == pre + [s];
      MatchedNames(pre, keywords) + (if KeywordMatch(keywords, s.name) then [s.name] else [])
  }

  /** Points from interests: 20 for every profile interest that is one of the
      path's tags, compared exactly. */
  function InterestPoints(interests: seq<string>, tags: seq<string>): int
  {
    if interests == [] then 0
    else InterestPoints(interests[..|interests| - 1], tags) + (if interests[|interests| - 1] in tags then 20 else 0)
  }

  /** The raw score of one catalogue path. */
  function PathScore(data: AssessmentData, path: CareerPath): int
  {
    SkillPoints(data.skills, path.keywords) + InterestPoints(data.interests, path.interests)
  }

  /** The scoring pass of one path: the two `forEach` loops over the
      profile's skills and interests. */
  method ScorePath(data: AssessmentData, path: CareerPath) returns (score: int, matches: seq<string>)
    ensures score == PathScore(data, path)
    ensures matches == MatchedNames(data.skills, path.keywords)
  {
    score := 0;
    matches := [];
    var i := 0;
    while i < |data.skills|
      invariant 0 <= i <= |data.skills|
      invariant score == SkillPoints(data.skills[..i], path.keywords)
      invariant matches == MatchedNames(data.skills[..i], path.keywords)
    {
      var skill := data.skills[i];
      assert data.skills[..i + 1][..i] == data.skills[..i];
      if KeywordMatch(path.keywords, skill.name) {
        score := score + skill.rating * 5;
        matches := matches + [skill.name];
      }
      i := i + 1;
    }
    assert data.skills[..i] == data.skills;
    var skillScore := score;
    var j := 0;
    while j < |data.interests|
      invariant 0 <= j <= |data.interests|
      invariant score == skillScore + InterestPoints(data.interests[..j], path.interests)
    {
      assert data.interests[..j + 1][..j] == data.interests[..j];
      if data.interests[j] in path.interests {
        score := score + 20;
      }
      j := j + 1;
    }
    assert data.interests[..j] == data.interests;
  }

  /** With ratings in 1..5, every matched skill adds between 5 and 25 points. */
  lemma {:induction false} SkillPointsBounds(skills: seq<SkillRating>, keywords: seq<string>)
    requires forall s :: s in skills ==> 1 <= s.rating <= 5
    ensures 5 * |MatchedNames(skills, keywords)| <= SkillPoints(skills, keywords)
                                                 <= 25 * |MatchedNames(skills, keywords)|
  {
    if skills != [] {
      SkillPointsBounds(skills[..|skills| - 1], keywords);
    }
  }

  /** The tags test of one interest. */
  function InTags(tags: seq<string>): string -> bool
  {
    i => i in tags
  }

  /** Interest points are 20 times the number of interests found among the tags. */
  lemma {:induction false} InterestPointsCount(interests: seq<string>, tags: seq<string>)
    ensures InterestPoints(interests, tags) == 20 * |Filter(InTags(tags), interests)|
  {
    if interests != [] {
      var pre := interests[..|interests| - 1];
      var x := interests[|interests| - 1];
      InterestPointsCount(pre, tags);
      assert interests == pre + [x];
      FilterConcat(InTags(tags), pre, [x]);
    }
  }

  /** A scored path: the catalogue entry with its score and matched names. */
  datatype ScoredPath = ScoredPath(path: CareerPath, score: int, matches: seq<string>)

  function ScoreOf(s: ScoredPath): int
  {
    s.score
  }

  function Scored(data: AssessmentData, path: CareerPath): ScoredPath
  {
    ScoredPath(path, PathScore(data, path), MatchedNames(data.skills, path.keywords))
  }

  /** `CAREER_PATHS.map(...)`: every path scored, in catalogue order. */
  function ScoreCatalog(data: AssessmentData): (r: seq<ScoredPath>)
    ensures |r| == |CareerPaths|
    ensures forall i :: 0 <= i < |r| ==> r[i] == Scored(data, CareerPaths[i])
  {
    seq(|CareerPaths|, i requires 0 <= i < |CareerPaths| => Scored(data, CareerPaths[i]))
  }

  /** The scored catalogue sorted by descending score. */
  function Ranked(data: AssessmentData): (r: seq<ScoredPath>)
    ensures |r| == |CareerPaths|
  {
    SortDesc(ScoreCatalog(data), ScoreOf)
  }

  /** `min(95 - index * 7 - jitter, 98)`: for the ranks 0..2 and a jitter in
      0..3 the cap never applies and the value lies in 78..95. */
  function MatchPercentage(rank: int, jitter: int): (r: int)
    requires 0 <= rank <= 2 && 0 <= jitter <= 3
    ensures r == 95 - 7 * rank - jitter
    ensures 78 <= r <= 95
  {
    var base := 95 - rank * 7 - jitter;
    if base < 98 then base else 98
  }

  function NameOf(s: SkillRating): string
  {
    s.name
  }

  function LowerName(s: SkillRating): string
  {
    Lower(s.name)
  }

  /** Rated 2 or more and matching a keyword. */
  function Strong(keywords: seq<string>): SkillRating -> bool
  {
    (s: SkillRating) => s.rating >= 2 && KeywordMatch(keywords, s.name)
  }

  /** Rated 1 or less and matching a keyword. */
  function Weak(keywords: seq<string>): SkillRating -> bool
  {
    (s: SkillRating) => s.rating <= 1 && KeywordMatch(keywords, s.name)
  }

  /** A keyword whose lower-case form is none of `known`. */
  function Unmentioned(known: seq<string>): string -> bool
  {
    k => Lower(k) !in known
  }

  /** `skillsHave` of the fallback. */
  function HaveNames(skills: seq<SkillRating>, keywords: seq<string>): seq<string>
  {
    Map(NameOf, Filter(Strong(keywords), skills))
  }

  /** The weak matching skills. */
  function WeakNames(skills: seq<SkillRating>, keywords: seq<string>): seq<string>
  {
    Map(NameOf, Filter(Weak(keywords), skills))
  }

  /** The keywords that no profile skill names, ignoring case. */
  function CompletelyMissing(skills: seq<SkillRating>, keywords: seq<string>): seq<string>
  {
    Filter(Unmentioned(Map(LowerName, skills)), keywords)
  }

  /** `[...weakSkills, ...completelyMissing, ...path.missing].slice(0, 4)`. */
  function RelevantMissing(skills: seq<SkillRating>, path: CareerPath): seq<string>
  {
    Take(WeakNames(skills, path.keywords) + CompletelyMissing(skills, path.keywords) + path.missing, 4)
  }

  /** `skillsMissing` of the fallback. */
  function MissingNames(skills: seq<SkillRating>, path: CareerPath): seq<string>
  {
    var relevant := RelevantMissing(skills, path);
    if |relevant| > 0 then relevant else Take(path.missing, 3)
  }

  /** Element `i` as a template literal prints it (`undefined` when absent). */
  function At(xs: seq<string>, i: nat): string
  {
    if i < |xs| then xs[i] else "undefined"
  }

  /** The fixed text of the three reasons. */
  const SkillsReason: seq<string> := ["Matches your proficiency in ", ", ", "."]
  const InterestReason: string := "Aligned with your interest in "
  const FieldReason: seq<string> := ["Strong fit for your ", " background."]

  function Reasons(data: AssessmentData, sp: ScoredPath): seq<string>
  {
    [ if |sp.matches| > 0
        then SkillsReason[0] + Join(Take(sp.matches, 3), SkillsReason[1]) + SkillsReason[2]
        else InterestReason + At(sp.path.interests, 0) + SkillsReason[2],
      FieldReason[0] + data.field + FieldReason[1],
      sp.path.description ]
  }

  /** The fixed text of the roadmap template; `Roadmap` fills in the role
      and the path's keywords. */
  const Week1Topics: seq<string> := [" Foundations", "Setup & Core Tools"]
  const Week1Tasks: seq<string> := ["Review core concepts for ", "Set up development environment containing ",
                                    "Understand the ecosystem and main paradigms"]
  const Week1Project: string := " Fundamentals Sandbox"
  const Week2Topics: seq<string> := ["Deep Dive: ", "Building with "]
  const Week2Tasks: seq<string> := ["Build proof-of-concept application", "Deep dive into advanced tools",
                                    "Connect different components of the stack"]
  const Week2Project: string := " System Design & Core Features"
  const Week3Topics: seq<string> := ["Advanced Concepts", "Optimizing "]
  const Week3Tasks: seq<string> := ["Optimize performance and scaling", "Implement industry best practices",
                                    "Refactor code for real-world usage"]
  const Week3Project: string := "Production-ready Feature Expansion"
  const Week4Topics: seq<string> := ["Production Readiness", "System Architecture & Deployment"]
  const Week4Tasks: seq<string> := ["Testing, Debugging & Quality Assurance", "Final Deployment as a ",
                                    "Documenting technical decisions"]
  const Week4Project: string := " Portfolio Showcase Implementation"

  /** The four-week roadmap template filled in for one path. */
  function Roadmap(path: CareerPath): seq<RoadmapWeek>
  {
    var role := path.role;
    [ RoadmapWeek(1,
        [role + Week1Topics[0], Week1Topics[1]],
        [Week1Tasks[0] + role, Week1Tasks[1] + At(path.keywords, 0), Week1Tasks[2]],
        role + Week1Project),
      RoadmapWeek(2,
        [Week2Topics[0] + At(path.keywords, 1), Week2Topics[1] + At(path.keywords, 2)],
        Week2Tasks,
        role + Week2Project),
      RoadmapWeek(3,
        [Week3Topics[0], Week3Topics[1] + At(path.keywords, 0)],
        Week3Tasks,
        Week3Project),
      RoadmapWeek(4,
        Week4Topics,
        [Week4Tasks[0], Week4Tasks[1] + role, Week4Tasks[2]],
        role + Week4Project) ]
  }

  /** The two resource links; the first is titled after the role. */
  const RoadmapLink: ResourceLink := ResourceLink(" Roadmap", "https://roadmap.sh", "Guide")
  const CourseLink: ResourceLink := ResourceLink("FreeCodeCamp", "https://freecodecamp.org", "Course")

  function Resources(path: CareerPath): seq<ResourceLink>
  {
    [ ResourceLink(path.role + RoadmapLink.title, RoadmapLink.url, RoadmapLink.category), CourseLink ]
  }

  /** The recommendation built for the path at rank `rank`. */
  function BuildRecommendation(data: AssessmentData, sp: ScoredPath, rank: int, jitter: int): AIRecommendation
    requires 0 <= rank <= 2 && 0 <= jitter <= 3
  {
    AIRecommendation(
      sp.path.role,
      MatchPercentage(rank, jitter),
      Reasons(data, sp),
      HaveNames(data.skills, sp.path.keywords),
      MissingNames(data.skills, sp.path),
      None,
      Roadmap(sp.path),
      Resources(sp.path))
  }

  /** One random draw `Math.floor(Math.random() * 4)` per rank. */
  predicate ValidJitter(jitter: seq<int>)
  {
    |jitter| == 3 && forall i :: 0 <= i < 3 ==> 0 <= jitter[i] <= 3
  }

  /** `getFallbackRecommendations(data)` with the random draws given. */
  function FallbackSpec(data: AssessmentData, jitter: seq<int>): seq<AIRecommendation>
    requires ValidJitter(jitter)
  {
    var ranked := Ranked(data);
    seq(3, i requires 0 <= i < 3 => BuildRecommendation(data, ranked[i], i, jitter[i]))
  }

  /** `getFallbackRecommendations`: the scoring pass over the catalogue, then
      the sort, the top three and the templates. */
  method GetFallbackRecommendations(data: AssessmentData, jitter: seq<int>) returns (recs: seq<AIRecommendation>)
    requires ValidJitter(jitter)
    ensures recs == FallbackSpec(data, jitter)
    ensures |recs| == 3
  {
    var scoredPaths: seq<ScoredPath> := [];
    var i := 0;
    while i < |CareerPaths|
      invariant 0 <= i <= |CareerPaths|
      invariant scoredPaths == ScoreCatalog(data)[..i]
    {
      var path := CareerPaths[i];
      var score, matches := ScorePath(data, path);
      scoredPaths := scoredPaths + [ScoredPath(path, score, matches)];
      i := i + 1;
    }
    assert scoredPaths == ScoreCatalog(data);
    var topPaths := SortDesc(scoredPaths, ScoreOf)[..3];
    recs := seq(3, k requires 0 <= k < 3 => BuildRecommendation(data, topPaths[k], k, jitter[k]));
  }

  /** A ranked entry is one of the scored catalogue entries. */
  lemma RankedFromCatalog(data: AssessmentData, i: int)
    requires 0 <= i < |Ranked(data)|
    ensures Ranked(data)[i] in ScoreCatalog(data)
    ensures Ranked(data)[i].path in CareerPaths
    ensures Ranked(data)[i].score == PathScore(data, Ranked(data)[i].path)
    ensures Ranked(data)[i].matches == MatchedNames(data.skills, Ranked(data)[i].path.keywords)
  {
    var ranked := Ranked(data);
    assert ranked[i] in multiset(ranked);
    var j :| 0 <= j < |ScoreCatalog(data)| && ScoreCatalog(data)[j] == ranked[i];
  }

  /** The recommendation at rank `i` is built from the path at rank `i`. */
  lemma FallbackEntry(data: AssessmentData, jitter: seq<int>, i: int)
    requires ValidJitter(jitter) && 0 <= i < 3
    ensures FallbackSpec(data, jitter)[i].roleName == Ranked(data)[i].path.role
    ensures FallbackSpec(data, jitter)[i].skillsHave == HaveNames(data.skills, Ranked(data)[i].path.keywords)
    ensures FallbackSpec(data, jitter)[i].skillsMissing == MissingNames(data.skills, Ranked(data)[i].path)
  {
  }

  /** The ranking is a non-increasing permutation of the scored catalogue
      in which paths with equal scores keep their catalogue order. */
  lemma RankedOrder(data: AssessmentData)
    ensures var ranked := Ranked(data);
            var sc := ScoreCatalog(data);
            && multiset(ranked) == multiset(sc)
            && (forall i, j :: 0 <= i < j < |ranked| ==> ranked[i].score >= ranked[j].score)
            && (forall k :: Filter(HasKey(ScoreOf, k), ranked) == Filter(HasKey(ScoreOf, k), sc))
  {
    var sc := ScoreCatalog(data);
    forall k ensures Filter(HasKey(ScoreOf, k), Ranked(data)) == Filter(HasKey(ScoreOf, k), sc) {
      SortStable(sc, ScoreOf, k);
    }
  }

  /** A catalogue path outside the first three ranks scores no more than
      the path at rank 2. */
  lemma LeftOutScoresLess(data: AssessmentData, j: int)
    requires 0 <= j < |CareerPaths|
    ensures var ranked := Ranked(data);
            (exists i :: 0 <= i < 3 && ranked[i].path == CareerPaths[j])
            || PathScore(data, CareerPaths[j]) <= ranked[2].score
  {
    var ranked := Ranked(data);
    var sc := ScoreCatalog(data);
    assert sc[j] in multiset(ranked);
    var m :| 0 <= m < |ranked| && ranked[m] == sc[j];
    if m >= 3 {
      assert ranked[2].score >= ranked[m].score;
    } else {
      assert ranked[m].path == CareerPaths[j];
    }
  }

  /** The fallback recommends the paths with the three highest scores: each
      of the first three ranks holds a catalogue path with its own score,
      and every catalogue path left out scores no more than the third one.
      `FallbackEntry` states that rank `i` gives recommendation `i`. */
  lemma FallbackRanking(data: AssessmentData)
    ensures var ranked := Ranked(data);
            && (forall i :: 0 <= i < 3 ==>
                  ranked[i].path in CareerPaths && ranked[i].score == PathScore(data, ranked[i].path))
            && (forall j :: 0 <= j < |CareerPaths| ==>
                  (exists i :: 0 <= i < 3 && ranked[i].path == CareerPaths[j])
                  || PathScore(data, CareerPaths[j]) <= ranked[2].score)
  {
    forall i | 0 <= i < 3
      ensures Ranked(data)[i].path in CareerPaths && Ranked(data)[i].score == PathScore(data, Ranked(data)[i].path)
    {
      RankedFromCatalog(data, i);
    }
    forall j | 0 <= j < |CareerPaths|
      ensures (exists i :: 0 <= i < 3 && Ranked(data)[i].path == CareerPaths[j])
              || PathScore(data, CareerPaths[j]) <= Ranked(data)[2].score
    {
      LeftOutScoresLess(data, j);
    }
  }

  /** One fallback recommendation: its role and percentage, three reasons
      (the second naming the field), a four-week roadmap numbered 1 to 4, two
      resource links, no priority list, and one to four missing skills. */
  lemma RecommendationShape(data: AssessmentData, sp: ScoredPath, rank: int, jitter: int)
    requires 0 <= rank <= 2 && 0 <= jitter <= 3
    requires |sp.path.missing| >= 1
    ensures var r := BuildRecommendation(data, sp, rank, jitter);
            && r.roleName == sp.path.role
            && r.matchPercentage == 95 - 7 * rank - jitter
            && |r.reasons| == 3 && r.reasons[1] == "Strong fit for your " + data.field + " background."
            && r.reasons[2] == sp.path.description
            && |r.roadmap| == 4
            && (forall w :: 0 <= w < 4 ==> r.roadmap[w].week == w + 1)
            && |r.resourceLinks| == 2 && r.priority == None
            && 1 <= |r.skillsMissing| <= 4
  {
    MissingSpec(data.skills, sp.path);
  }

  /** The fallback recommendation at rank `i` has the shape of
      `RecommendationShape`. */
  lemma FallbackShapeAt(data: AssessmentData, jitter: seq<int>, i: int)
    requires ValidJitter(jitter) && 0 <= i < 3
    ensures var r := FallbackSpec(data, jitter)[i];
            && r.matchPercentage == 95 - 7 * i - jitter[i]
            && |r.reasons| == 3 && |r.roadmap| == 4 && |r.resourceLinks| == 2
            && 1 <= |r.skillsMissing| <= 4
  {
    var ranked := Ranked(data);
    var r := BuildRecommendation(data, ranked[i], i, jitter[i]);
    assert FallbackSpec(data, jitter)[i] == r;
    RankedFromCatalog(data, i);
    CatalogWellFormed();
    assert WellFormed(ranked[i].path);
    RecommendationShape(data, ranked[i], i, jitter[i]);
  }

  /** Percentages strictly decrease with the rank. */
  lemma FallbackPercentagesDecrease(data: AssessmentData, jitter: seq<int>, i: int, j: int)
    requires ValidJitter(jitter) && 0 <= i < j < 3
    ensures FallbackSpec(data, jitter)[i].matchPercentage > FallbackSpec(data, jitter)[j].matchPercentage
  {
    FallbackShapeAt(data, jitter, i);
    FallbackShapeAt(data, jitter, j);
  }

  /** `skillsHave` of the fallback lists, in profile order, exactly the
      profile skills rated 2 or more that match a keyword, one entry per
      such skill (a repeated name is listed as often as it qualifies). */
  lemma HaveNamesSpec(skills: seq<SkillRating>, keywords: seq<string>)
    ensures forall n :: n in HaveNames(skills, keywords) <==>
              exists s :: s in skills && s.name == n && s.rating >= 2 && KeywordMatch(keywords, n)
    ensures IsSubseq(HaveNames(skills, keywords), Map(NameOf, skills))
    ensures |HaveNames(skills, keywords)| == |Filter(Strong(keywords), skills)|
  {
    var f := Filter(Strong(keywords), skills);
    forall n ensures n in HaveNames(skills, keywords) <==>
              exists s :: s in skills && s.name == n && s.rating >= 2 && KeywordMatch(keywords, n) {
      if exists s :: s in skills && s.name == n && s.rating >= 2 && KeywordMatch(keywords, n) {
        var s :| s in skills && s.name == n && s.rating >= 2 && KeywordMatch(keywords, n);
        assert s in f;
        var j :| 0 <= j < |f| && f[j] == s;
        assert HaveNames(skills, keywords)[j] == n;
      }
      if n in HaveNames(skills, keywords) {
        var j :| 0 <= j < |f| && HaveNames(skills, keywords)[j] == n;
        assert f[j] in f;
      }
    }
    FilterIsSubseq(Strong(keywords), skills);
    MapSubseq(NameOf, f, skills);
  }

  /** `skillsMissing` of the fallback, for a path with a baseline gap list:
      the alternative branch never applies; the list holds one to four
      entries, and is the start of the weak matching skills, then the
      keywords the profile never names, then the baseline gaps. */
  lemma MissingSpec(skills: seq<SkillRating>, path: CareerPath)
    requires |path.missing| >= 1
    ensures MissingNames(skills, path) == RelevantMissing(skills, path)
    ensures 1 <= |MissingNames(skills, path)| <= 4
    ensures var all := WeakNames(skills, path.keywords) + CompletelyMissing(skills, path.keywords) + path.missing;
            MissingNames(skills, path) == all[..|MissingNames(skills, path)|]
    ensures forall n :: n in MissingNames(skills, path) ==>
              (exists s :: s in skills && s.name == n && s.rating <= 1 && KeywordMatch(path.keywords, n))
              || (n in path.keywords && Lower(n) !in Map(LowerName, skills))
              || n in path.missing
  {
    var w := Filter(Weak(path.keywords), skills);
    var all := WeakNames(skills, path.keywords) + CompletelyMissing(skills, path.keywords) + path.missing;
    var r := MissingNames(skills, path);
    forall n | n in r
      ensures (exists s :: s in skills && s.name == n && s.rating <= 1 && KeywordMatch(path.keywords, n))
              || (n in path.keywords && Lower(n) !in Map(LowerName, skills))
              || n in path.missing
    {
      assert n in all;
      if n in WeakNames(skills, path.keywords) {
        var j :| 0 <= j < |w| && WeakNames(skills, path.keywords)[j] == n;
        assert w[j] in w;
      }
    }
  }

  /** A name that matches no keyword and is no baseline gap is never listed
      as missing. */
  lemma MissingExcludes(skills: seq<SkillRating>, path: CareerPath, n: string)
    requires |path.missing| >= 1
    requires !KeywordMatch(path.keywords, n) && n !in path.missing
    ensures n !in MissingNames(skills, path)
  {
    MissingSpec(skills, path);
  }

  /** With no skills the gaps are the path's first four keywords. */
  lemma MissingWithoutSkills(path: CareerPath)
    requires |path.keywords| >= 4
    ensures MissingNames([], path) == path.keywords[..4]
  {
    FilterAll(Unmentioned(Map(LowerName, [])), path.keywords);
    assert WeakNames([], path.keywords) + CompletelyMissing([], path.keywords) + path.missing
        == path.keywords + path.missing;
  }

  /** With no skills and no interests every score is 0 and the ranking is
      the catalogue order. */
  lemma RankedEmptyProfile(data: AssessmentData)
    requires data.skills == [] && data.interests == []
    ensures Ranked(data) == ScoreCatalog(data)
  {
    var sc := ScoreCatalog(data);
    forall x | x in sc ensures ScoreOf(x) == 0 {
      var j :| 0 <= j < |sc| && sc[j] == x;
    }
    SortEqualKeys(sc, ScoreOf, 0);
  }

  /** With no skills and no interests the recommendation at rank `i` is
      built from the catalogue path at position `i`. */
  lemma EmptyProfileEntry(data: AssessmentData, jitter: seq<int>, i: int)
    requires ValidJitter(jitter) && 0 <= i < 3
    requires data.skills == [] && data.interests == []
    ensures FallbackSpec(data, jitter)[i].roleName == CareerPaths[i].role
    ensures FallbackSpec(data, jitter)[i].skillsHave == []
    ensures FallbackSpec(data, jitter)[i].skillsMissing == CareerPaths[i].keywords[..4]
  {
    RankedEmptyProfile(data);
    var path := CareerPaths[i];
    assert Ranked(data)[i].path == path;
    assert |path.keywords| >= 4;
    MissingWithoutSkills(path);
  }

  /** The roles of the first three catalogue paths. */
  lemma LeadingRoles()
    ensures CareerPaths[0].role == "Data Scientist"
    ensures CareerPaths[1].role == "Frontend Developer"
    ensures CareerPaths[2].role == "Backend Engineer"
  {
  }

  /** With no skills and no interests the first three catalogue paths are
      recommended in catalogue order; `EmptyProfileEntry` gives what each
      of them lists. */
  lemma FallbackEmptyProfile(data: AssessmentData, jitter: seq<int>)
    requires ValidJitter(jitter)
    requires data.skills == [] && data.interests == []
    ensures FallbackSpec(data, jitter)[0].roleName == "Data Scientist"
    ensures FallbackSpec(data, jitter)[1].roleName == "Frontend Developer"
    ensures FallbackSpec(data, jitter)[2].roleName == "Backend Engineer"
  {
    EmptyProfileEntry(data, jitter, 0);
    EmptyProfileEntry(data, jitter, 1);
    EmptyProfileEntry(data, jitter, 2);
    LeadingRoles();
  }
}
