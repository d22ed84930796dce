/** The role library's search of components/Roles.tsx: a lower-cased,
    space-separated multi-keyword search in which every keyword must occur
    in the role's name, domain, description or one of its skills, combined
    with an exact domain filter and an exact level filter. */
module Roles {
  import opened Text
  import opened Seqs
  import opened Types
  import opened Constants

  const AllDomains: string := "All Domains"
  const AllLevels: string := "All Levels"

  /** `levels`: the level selector's options. */
  const Levels: seq<string> := [AllLevels, "Entry Level", "Mid Level", "Senior Level"]

  /** The three controls of the library: search text, domain and level. */
  datatype RoleFilters = RoleFilters(search: string, domain: string, level: string)

  function IsKeyword(k: string): bool
  {
    |k| > 0
  }

  /** `search.toLowerCase().split(' ').filter(k => k.length > 0)`. */
  function Keywords(search: string): (ks: seq<string>)
    ensures forall k :: k in ks ==> k != "" && ' ' !in k
  {
    Filter(IsKeyword, Split(Lower(search), ' '))
  }

  /** One keyword occurs in the lower-cased name, domain, description or
      some skill of the role. */
  predicate Mentions(role: CareerRole, keyword: string)
  {
    Contains(Lower(role.name), keyword) || Contains(Lower(role.domain), keyword)
    || Contains(Lower(role.description), keyword)
    || exists s :: s in role.skills && Contains(Lower(s), keyword)
  }

  /** `matchesSearch`. */
  predicate MatchesSearch(role: CareerRole, search: string)
  {
    var ks := Keywords(search);
    |ks| == 0 || forall k :: k in ks ==> Mentions(role, k)
  }

  predicate MatchesDomain(role: CareerRole, domain: string)
  {
    domain == AllDomains || role.domain == domain
  }

  predicate MatchesLevel(role: CareerRole, level: string)
  {
    level == AllLevels || role.level == level
  }

  function Passes(f: RoleFilters): CareerRole -> bool
  {
    role => MatchesSearch(role, f.search) && MatchesDomain(role, f.domain) && MatchesLevel(role, f.level)
  }

  /** `filteredRoles`. */
  function FilteredRoles(f: RoleFilters): seq<CareerRole>
  {
    Filter(Passes(f), AllRoles)
  }

  /** A role is listed exactly when it is in the library and passes all
      three filters, and the listing keeps the library's order. */
  lemma FilteredRolesSpec(f: RoleFilters)
    ensures forall role :: role in FilteredRoles(f) <==>
      role in AllRoles && MatchesSearch(role, f.search) && MatchesDomain(role, f.domain) && MatchesLevel(role, f.level)
    ensures IsSubseq(FilteredRoles(f), AllRoles)
  {
    FilterIsSubseq(Passes(f), AllRoles);
  }

  /** A search of spaces only (the empty search included) has no keywords,
      so it matches every role. */
  lemma BlankSearch(search: string, role: CareerRole)
    requires forall i :: 0 <= i < |search| ==> search[i] == ' '
    ensures Keywords(search) == []
    ensures MatchesSearch(role, search)
  {
    var pieces := Split(Lower(search), ' ');
    SplitSeparators(Lower(search), ' ');
    FilterNone(IsKeyword, pieces);
  }

  /** The keywords of `a + " " + b` are those of `a` followed by those of `b`. */
  lemma KeywordsAround(a: string, b: string)
    ensures Keywords(a + " " + b) == Keywords(a) + Keywords(b)
  {
    LowerConcat(a + " ", b);
    LowerConcat(a, " ");
    assert Lower(" ") == " ";
    SplitAround(Lower(a), Lower(b), ' ');
    FilterConcat(IsKeyword, Split(Lower(a), ' '), Split(Lower(b), ' '));
  }

  /** Typing one more search word can only remove roles: every role that
      matches the longer search matches the shorter one. */
  lemma MoreKeywordsNarrow(a: string, b: string, role: CareerRole)
    requires MatchesSearch(role, a + " " + b)
    ensures MatchesSearch(role, a)
  {
    KeywordsAround(a, b);
  }

  /** The listing for the longer search is a subsequence of the listing
      for the shorter one. */
  lemma MoreKeywordsSubseq(a: string, b: string, domain: string, level: string)
    ensures IsSubseq(FilteredRoles(RoleFilters(a + " " + b, domain, level)), FilteredRoles(RoleFilters(a, domain, level)))
  {
    var p := Passes(RoleFilters(a + " " + b, domain, level));
    var q := Passes(RoleFilters(a, domain, level));
    forall role | role in AllRoles && p(role) ensures q(role) {
      MoreKeywordsNarrow(a, b, role);
    }
    FilterStronger(p, q, AllRoles);
  }

  /** The level and domain placeholders pass every role; any other choice
      passes exactly the roles with that value. */
  lemma PlaceholderFilters(role: CareerRole, domain: string, level: string)
    ensures MatchesDomain(role, AllDomains) && MatchesLevel(role, AllLevels)
    ensures domain != AllDomains ==> (MatchesDomain(role, domain) <==> role.domain == domain)
    ensures level != AllLevels ==> (MatchesLevel(role, level) <==> role.level == level)
  {
  }

  /** `domains`: the placeholder, then each role domain once in order of
      first appearance. */
  function Domains(): seq<string>
  {
    [AllDomains] + Dedup(Map(DomainOf, AllRoles))
  }

  function DomainOf(r: CareerRole): string
  {
    r.domain
  }

  /** The placeholder is no role domain: every role domain is shorter. */
  lemma PlaceholderNoDomain()
    ensures AllDomains !in Map(DomainOf, AllRoles)
  {
    var ds := Map(DomainOf, AllRoles);
    forall j | 0 <= j < |ds| ensures |ds[j]| < |AllDomains| {
      assert ds[j] == AllRoles[j].domain;
    }
  }

  /** A domain is among the role domains exactly when some library role has
      it. */
  lemma RoleDomains(d: string)
    ensures d in Map(DomainOf, AllRoles) <==> exists r :: r in AllRoles && r.domain == d
  {
    MapMembers(DomainOf, AllRoles, d);
  }

  /** The domain selector offers the placeholder first, then every library
      domain exactly once and nothing else, in order of first appearance
      in the library. */
  lemma DomainsSpec()
    ensures Domains()[0] == AllDomains
    ensures Distinct(Domains())
    ensures forall d :: d in Domains()[1..] <==> exists r :: r in AllRoles && r.domain == d
    ensures Domains()[1..] == Dedup(Map(DomainOf, AllRoles))
    ensures forall i, j :: 1 <= i < j < |Domains()| ==>
      FirstIndex(Map(DomainOf, AllRoles), Domains()[i]) < FirstIndex(Map(DomainOf, AllRoles), Domains()[j])
  {
    var u := Dedup(Map(DomainOf, AllRoles));
    DedupOrder(Map(DomainOf, AllRoles));
    forall i | 1 <= i < |Domains()| ensures Domains()[i] == u[i - 1] {
    }
    assert Domains() == [AllDomains] + u;
    assert Domains()[1..] == u;
    forall d ensures d in u <==> exists r :: r in AllRoles && r.domain == d {
      RoleDomains(d);
    }
    PlaceholderNoDomain();
    DistinctCons(AllDomains, u);
  }

  /** With the other controls cleared, a library role is listed under its
      own domain and under the placeholder. */
  lemma RoleListedUnder(r: CareerRole, d: string)
    requires r in AllRoles && (d == AllDomains || d == r.domain)
    ensures r in FilteredRoles(RoleFilters("", d, AllLevels))
  {
    BlankSearch("", r);
    assert Passes(RoleFilters("", d, AllLevels))(r);
  }

  /** Choosing any offered domain with the other controls cleared lists at
      least one role. */
  lemma DomainChoiceNonEmpty(d: string)
    requires d in Domains()
    ensures FilteredRoles(RoleFilters("", d, AllLevels)) != []
  {
    DomainsSpec();
    if d == AllDomains {
      RoleListedUnder(AllRoles[0], d);
    } else {
      var i :| 0 <= i < |Domains()| && Domains()[i] == d;
      assert Domains()[1..][i - 1] == d;
      var r :| r in AllRoles && r.domain == d;
      RoleListedUnder(r, d);
    }
  }

  /** No library role is at Senior Level, so that choice lists nothing. */
  lemma SeniorLevelEmpty(search: string, domain: string)
    ensures FilteredRoles(RoleFilters(search, domain, "Senior Level")) == []
  {
    var p := Passes(RoleFilters(search, domain, "Senior Level"));
    forall role | role in AllRoles ensures !p(role) {
      var j :| 0 <= j < |AllRoles| && AllRoles[j] == role;
    }
    FilterNone(p, AllRoles);
  }

  /** `clearFilters`. */
  function ClearFilters(): RoleFilters
  {
    RoleFilters("", AllDomains, AllLevels)
  }

  /** `isFilterActive`. */
  predicate IsFilterActive(f: RoleFilters)
  {
    f.search != "" || f.domain != AllDomains || f.level != AllLevels
  }

  /** A search of spaces only, with both placeholders, lists the whole
      library. */
  lemma BlankFiltersListAll(search: string)
    requires forall i :: 0 <= i < |search| ==> search[i] == ' '
    ensures FilteredRoles(RoleFilters(search, AllDomains, AllLevels)) == AllRoles
  {
    var p := Passes(RoleFilters(search, AllDomains, AllLevels));
    forall role ensures p(role) {
      BlankSearch(search, role);
    }
    FilterAll(p, AllRoles);
  }

  /** The cleared filters are exactly the inactive ones, and an inactive
      filter lists the whole library. */
  lemma InactiveListsAll(f: RoleFilters)
    ensures !IsFilterActive(f) <==> f == ClearFilters()
    ensures !IsFilterActive(f) ==> FilteredRoles(f) == AllRoles
  {
    if !IsFilterActive(f) {
      BlankFiltersListAll("");
    }
  }

  /** A search of spaces alone is reported as an active filter although it
      hides no role. */
  lemma SpacesActiveButAll()
    ensures IsFilterActive(RoleFilters(" ", AllDomains, AllLevels))
    ensures FilteredRoles(RoleFilters(" ", AllDomains, AllLevels)) == AllRoles
  {
    BlankFiltersListAll(" ");
  }
}
