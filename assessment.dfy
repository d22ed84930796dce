/** The assessment form of components/Assessment.tsx: the field-of-study
    picker and the content it selects, and the handlers that edit the
    profile step by step (skills, interests, the wizard step). Each
    handler's next value is a function of the previous state; the form
    itself is a class whose methods apply those functions. */
module Assessment {
  import opened Text
  import opened Seqs
  import opened Types
  import opened Constants

  /** An entry of `FIELD_OPTIONS` (icon and blurb are presentation only). */
  datatype FieldOption = FieldOption(id: string, name: string)

  const FieldOptions: seq<FieldOption> := [
    FieldOption("CSE", "Computer Science & Engineering"),
    FieldOption("IT", "Information Technology"),
    FieldOption("AIML", "AI & Machine Learning"),
    FieldOption("DS", "Data Science"),
    FieldOption("ECE", "Electronics & Communication"),
    FieldOption("IOT", "Internet of Things"),
    FieldOption("CS", "Cybersecurity"),
    FieldOption("Mechanical", "Mechanical Engineering"),
    FieldOption("Civil", "Civil Engineering"),
    FieldOption("Other", "Other / Custom Field")
  ]

  // ---------------------------------------------------------------------
  // Field picker and the content it selects

  function FieldMatches(search: string): FieldOption -> bool
  {
    (f: FieldOption) => Contains(Lower(f.name), Lower(search)) || Contains(Lower(f.id), Lower(search))
  }

  /** `filteredFields`. */
  function FilteredFields(search: string): seq<FieldOption>
  {
    Filter(FieldMatches(search), FieldOptions)
  }

  /** An option is offered exactly when its lower-cased label (name) or id
      contains the lower-cased search; the order of the options is kept. */
  lemma FilteredFieldsSpec(search: string)
    ensures forall f :: f in FilteredFields(search) <==>
      f in FieldOptions && (Contains(Lower(f.name), Lower(search)) || Contains(Lower(f.id), Lower(search)))
    ensures IsSubseq(FilteredFields(search), FieldOptions)
  {
    FilterIsSubseq(FieldMatches(search), FieldOptions);
  }

  /** The empty search offers every option. */
  lemma EmptyFieldSearch()
    ensures FilteredFields("") == FieldOptions
  {
    forall f | f in FieldOptions ensures FieldMatches("")(f) {
      ContainsEmpty(Lower(f.name));
    }
    FilterAll(FieldMatches(""), FieldOptions);
  }

  /** The search ignores case. */
  lemma FieldSearchIgnoresCase(search: string)
    ensures FilteredFields(Lower(search)) == FilteredFields(search)
  {
    LowerIdempotent(search);
    assert FieldMatches(Lower(search)) == FieldMatches(search);
  }

  /** `find`: the first option with the given id, if any. */
  function FindField(options: seq<FieldOption>, id: string): (r: Option<FieldOption>)
    ensures r.Some? ==> exists i :: 0 <= i < |options| && options[i] == r.value && r.value.id == id
                                    && forall j :: 0 <= j < i ==> options[j].id != id
    ensures r.None? ==> forall f :: f in options ==> f.id != id
  {
    if options == [] then None
    else if options[0].id == id then Some(options[0])
    else
      var r := FindField(options[1..], id);
      if r.Some? then
        var i :| 0 <= i < |options[1..]| && options[1..][i] == r.value && r.value.id == id
                 && forall j :: 0 <= j < i ==> options[1..][j].id != id;
        assert options[i + 1] == r.value;
        r
      else r
  }

  /** `selectedFieldData`: the option of the profile's field, or the first
      option when no option has that id. */
  function SelectedField(field: string): (o: FieldOption)
    ensures o in FieldOptions
    ensures (exists f :: f in FieldOptions && f.id == field) ==> o.id == field
    ensures (forall f :: f in FieldOptions ==> f.id != field) ==> o == FieldOptions[0]
  {
    var r := FindField(FieldOptions, field);
    if r.Some? then r.value else FieldOptions[0]
  }

  /** `allInterests`. */
  const AllInterests: seq<string> := [
    "Data Analysis", "Web Development", "Mobile Development",
    "Cloud Computing", "Cybersecurity", "AI/ML",
    "DevOps", "Quality Assurance", "UI/UX Design",
    "Blockchain", "IoT", "Embedded Systems", "Robotics", "Product Management"
  ]

  /** `interestMapping`. */
  const InterestMapping: map<string, seq<string>> := map[
    "CSE" := ["Web Development", "Mobile Development", "Data Analysis", "Cloud Computing", "Cybersecurity", "AI/ML", "DevOps", "UI/UX Design", "Blockchain"],
    "IT" := ["Web Development", "Mobile Development", "Data Analysis", "Cloud Computing", "Cybersecurity", "DevOps", "Quality Assurance"],
    "CS" := ["AI/ML", "Data Analysis", "Web Development", "Cybersecurity", "Blockchain"],
    "AIML" := ["AI/ML", "Data Analysis", "Robotics", "Web Development"],
    "DS" := ["Data Analysis", "AI/ML", "Cloud Computing"],
    "ECE" := ["Embedded Systems", "IoT", "Robotics", "Data Analysis", "Cloud Computing", "Cybersecurity"],
    "IOT" := ["IoT", "Embedded Systems", "Cloud Computing", "Cybersecurity", "DevOps"],
    "Mechanical" := ["Robotics", "Embedded Systems", "Data Analysis", "Product Management"],
    "Civil" := ["Data Analysis", "Product Management", "Web Development"],
    "Other" := AllInterests
  ]

  function CategoryName(c: SkillCategory): string
  {
    c.category
  }

  /** `skillCategoryMapping`. */
  const SkillCategoryMapping: map<string, seq<string>> := map[
    "CSE" := ["Programming", "Web Technologies", "Cloud & DevOps", "Security", "AI/ML"],
    "IT" := ["Programming", "Web Technologies", "Cloud & DevOps", "Security"],
    "CS" := ["Programming", "Web Technologies", "AI/ML", "Security"],
    "AIML" := ["Programming", "AI/ML", "Data & Analytics"],
    "DS" := ["Programming", "Data & Analytics", "AI/ML"],
    "ECE" := ["Programming", "Embedded & IoT", "Security", "Cloud & DevOps"],
    "IOT" := ["Programming", "Embedded & IoT", "Cloud & DevOps", "Security"],
    "Mechanical" := ["Data & Analytics", "Embedded & IoT", "Programming", "Business & Design"],
    "Civil" := ["Data & Analytics", "Programming", "Business & Design"],
    "Other" := Map(CategoryName, SkillCategories)
  ]

  /** What step 2 and step 3 of the form show for a field. */
  datatype FieldContent = FieldContent(interests: seq<string>, skillCategories: seq<SkillCategory>)

  function Listed(names: seq<string>): SkillCategory -> bool
  {
    (c: SkillCategory) => c.category in names
  }

  /** The interests step 2 offers for a field. */
  function FieldInterests(field: string): seq<string>
  {
    if field in InterestMapping then InterestMapping[field] else AllInterests
  }

  /** The categories listed by name, in catalogue order, or every category
      when that leaves none. */
  function CategoriesFor(names: seq<string>): seq<SkillCategory>
  {
    var shown := Filter(Listed(names), SkillCategories);
    if |shown| > 0 then shown else SkillCategories
  }

  /** The categories step 3 offers for a field. */
  function FieldCategories(field: string): seq<SkillCategory>
  {
    CategoriesFor(if field in SkillCategoryMapping then SkillCategoryMapping[field] else [])
  }

  /** `filteredContent` for the selected field. */
  function FilteredContent(field: string): FieldContent
  {
    FieldContent(FieldInterests(field), FieldCategories(field))
  }

  /** Some interest is always offered; a mapped field gets exactly its
      mapped interests, and a field the mappings do not know gets every
      interest. */
  lemma FilteredInterestsSpec(field: string)
    ensures FilteredContent(field).interests != []
    ensures field in InterestMapping ==> FilteredContent(field).interests == InterestMapping[field]
    ensures field !in InterestMapping ==> FilteredContent(field).interests == AllInterests
  {
    InterestMappingNonEmpty(field);
  }

  /** The categories listed by name are never empty and keep catalogue
      order; no names give every category, and names that include the
      first category give exactly the categories named. */
  lemma CategoriesForSpec(names: seq<string>)
    ensures CategoriesFor(names) != []
    ensures IsSubseq(CategoriesFor(names), SkillCategories)
    ensures names == [] ==> CategoriesFor(names) == SkillCategories
    ensures SkillCategories[0].category in names ==>
      forall c :: c in CategoriesFor(names) <==> c in SkillCategories && c.category in names
  {
    var shown := Filter(Listed(names), SkillCategories);
    FilterIsSubseq(Listed(names), SkillCategories);
    if names == [] {
      FilterNone(Listed(names), SkillCategories);
    }
    if SkillCategories[0].category in names {
      assert SkillCategories[0] in shown;
    }
  }

  /** Some category is always offered, in catalogue order; a field the
      mappings do not know gets every category, and a known field gets
      exactly its mapped categories. */
  lemma FilteredCategoriesSpec(field: string)
    ensures FilteredContent(field).skillCategories != []
    ensures IsSubseq(FilteredContent(field).skillCategories, SkillCategories)
    ensures field !in SkillCategoryMapping ==> FilteredContent(field).skillCategories == SkillCategories
    ensures field in SkillCategoryMapping ==>
      forall c :: c in FilteredContent(field).skillCategories <==>
        c in SkillCategories && c.category in SkillCategoryMapping[field]
  {
    var names := if field in SkillCategoryMapping then SkillCategoryMapping[field] else [];
    CategoryMappingHasFirst(field);
    CategoriesForSpec(names);
  }

  /** Every mapped field lists some interest. */
  lemma InterestMappingNonEmpty(field: string)
    ensures field in InterestMapping ==> InterestMapping[field] != []
  {
    if field in InterestMapping && field != "Other" {
      assert field in {"CSE", "IT", "CS", "AIML", "DS", "ECE", "IOT", "Mechanical", "Civil"};
    }
  }

  /** Every mapped field lists "Programming", the first category. */
  lemma CategoryMappingHasFirst(field: string)
    ensures field in SkillCategoryMapping ==> SkillCategories[0].category in SkillCategoryMapping[field]
  {
    if field in SkillCategoryMapping {
      if field == "Other" {
        assert SkillCategoryMapping[field][0] == "Programming";
      } else {
        assert field in {"CSE", "IT", "CS", "AIML", "DS", "ECE", "IOT", "Mechanical", "Civil"};
      }
    }
  }

  /** The "Other" field shows every interest and every category. */
  lemma OtherFieldShowsAll()
    ensures FilteredContent("Other") == FieldContent(AllInterests, SkillCategories)
  {
    var names := Map(CategoryName, SkillCategories);
    assert SkillCategoryMapping["Other"] == names;
    forall c | c in SkillCategories ensures Listed(names)(c) {
      var j :| 0 <= j < |SkillCategories| && SkillCategories[j] == c;
      assert names[j] == c.category;
    }
    FilterAll(Listed(names), SkillCategories);
  }

  // ---------------------------------------------------------------------
  // Profile-editing reducers

  /** `prev.skills.findIndex(s => s.name === skillName)`. */
  function FindSkill(skills: seq<SkillRating>, name: string): (i: int)
    ensures -1 <= i < |skills|
    ensures i >= 0 ==> skills[i].name == name && forall j :: 0 <= j < i ==> skills[j].name != name
    ensures i == -1 ==> forall j :: 0 <= j < |skills| ==> skills[j].name != name
  {
    if skills == [] then -1
    else if skills[0].name == name then 0
    else
      var k := FindSkill(skills[1..], name);
      if k == -1 then -1 else k + 1
  }

  function NameIsNot(name: string): SkillRating -> bool
  {
    (s: SkillRating) => s.name != name
  }

  /** The next skill list computed by `handleSkillChange(skillName, rating)`:
      rating 0 removes the skill, otherwise the first entry with that name
      is overwritten or a new entry appended. */
  function SkillChange(skills: seq<SkillRating>, name: string, rating: int): seq<SkillRating>
  {
    var i := FindSkill(skills, name);
    if rating == 0 then
      if i == -1 then skills else Filter(NameIsNot(name), skills)
    else if i != -1 then skills[i := SkillRating(name, rating)]
    else skills + [SkillRating(name, rating)]
  }

  /** Rating 0 removes every entry with exactly that name and keeps the
      others in order; with no such entry the list is returned as it is. */
  lemma SkillChangeRemoves(skills: seq<SkillRating>, name: string)
    ensures var r := SkillChange(skills, name, 0);
            && (forall s :: s in r <==> s in skills && s.name != name)
            && IsSubseq(r, skills)
            && ((forall j :: 0 <= j < |skills| ==> skills[j].name != name) ==> r == skills)
  {
    FilterIsSubseq(NameIsNot(name), skills);
    if FindSkill(skills, name) == -1 {
      assert IsSubseq(skills, skills) by { SubseqRefl(skills); }
    }
  }

  /** A non-zero rating for a listed skill overwrites its first entry in
      place: same length, every other entry unchanged. */
  lemma SkillChangeReplaces(skills: seq<SkillRating>, name: string, rating: int, i: int)
    requires rating != 0
    requires 0 <= i < |skills| && skills[i].name == name
    requires forall j :: 0 <= j < i ==> skills[j].name != name
    ensures var r := SkillChange(skills, name, rating);
            && |r| == |skills| && r[i] == SkillRating(name, rating)
            && forall j :: 0 <= j < |skills| && j != i ==> r[j] == skills[j]
  {
    assert FindSkill(skills, name) == i;
  }

  /** A non-zero rating for an unlisted skill appends it. */
  lemma SkillChangeAppends(skills: seq<SkillRating>, name: string, rating: int)
    requires rating != 0
    requires forall j :: 0 <= j < |skills| ==> skills[j].name != name
    ensures SkillChange(skills, name, rating) == skills + [SkillRating(name, rating)]
  {
  }

  /** No two entries share a name. */
  predicate UniqueNames(skills: seq<SkillRating>)
  {
    forall i, j :: 0 <= i < j < |skills| ==> skills[i].name != skills[j].name
  }

  lemma {:induction false} FilterUniqueNames(p: SkillRating -> bool, skills: seq<SkillRating>)
    requires UniqueNames(skills)
    ensures UniqueNames(Filter(p, skills))
  {
    if skills != [] {
      var rest := skills[1..];
      assert UniqueNames(rest);
      FilterUniqueNames(p, rest);
      var fr := Filter(p, rest);
      if p(skills[0]) {
        var r := [skills[0]] + fr;
        forall i, j | 0 <= i < j < |r| ensures r[i].name != r[j].name {
          if i == 0 {
            assert r[j] in rest;
            var k :| 0 <= k < |rest| && rest[k] == r[j];
            assert skills[k + 1] == r[j];
          } else {
            assert r[i] == fr[i - 1] && r[j] == fr[j - 1];
          }
        }
      }
    }
  }

  /** Starting from unique names, names stay unique; afterwards the skill
      is absent (rating 0) or present exactly with the given rating. */
  lemma SkillChangeUnique(skills: seq<SkillRating>, name: string, rating: int)
    requires UniqueNames(skills)
    ensures var r := SkillChange(skills, name, rating);
            && UniqueNames(r)
            && (rating == 0 ==> forall s :: s in r ==> s.name != name)
            && (rating != 0 ==> SkillRating(name, rating) in r
                                && forall s :: s in r && s.name == name ==> s.rating == rating)
  {
    var i := FindSkill(skills, name);
    var r := SkillChange(skills, name, rating);
    if rating == 0 {
      if i != -1 {
        FilterUniqueNames(NameIsNot(name), skills);
      }
    } else if i != -1 {
      forall a, b | 0 <= a < b < |r| ensures r[a].name != r[b].name {
        if a != i && b != i {
          assert r[a] == skills[a] && r[b] == skills[b];
        }
      }
      assert r[i] == SkillRating(name, rating);
      forall k | 0 <= k < |r| && k != i ensures r[k].name != name {
        assert r[k] == skills[k];
      }
    } else {
      assert r[|skills|] == SkillRating(name, rating);
      forall a, b | 0 <= a < b < |r| ensures r[a].name != r[b].name {
        if b < |skills| {
          assert r[a] == skills[a] && r[b] == skills[b];
        } else {
          assert r[a] == skills[a];
        }
      }
      forall k | 0 <= k < |skills| ensures r[k].name != name {
        assert r[k] == skills[k];
      }
    }
  }

  function IsNot(x: string): string -> bool
  {
    (y: string) => y != x
  }

  /** The next interest list computed by `handleInterestToggle(x)`. */
  function Toggle(interests: seq<string>, x: string): seq<string>
  {
    if x in interests then Filter(IsNot(x), interests) else interests + [x]
  }

  /** Toggling flips membership of `x`, removing every occurrence of a
      present one and appending an absent one at the end; nothing else
      changes and the order of the others is kept. */
  lemma ToggleSpec(interests: seq<string>, x: string)
    ensures var r := Toggle(interests, x);
            && (x in r <==> x !in interests)
            && (forall y :: y != x ==> (y in r <==> y in interests))
            && (x in interests ==> IsSubseq(r, interests))
            && (x !in interests ==> r[..|interests|] == interests && r[|interests|] == x)
  {
    if x in interests {
      FilterIsSubseq(IsNot(x), interests);
    } else {
      var r := Toggle(interests, x);
      assert r[..|interests|] == interests;
    }
  }

  /** Toggling an absent interest twice gives the original list back. */
  lemma ToggleTwice(interests: seq<string>, x: string)
    requires x !in interests
    ensures Toggle(Toggle(interests, x), x) == interests
  {
    FilterConcat(IsNot(x), interests, [x]);
    FilterAll(IsNot(x), interests);
  }

  /** Toggling keeps a repetition-free list free of repetitions. */
  lemma ToggleDistinct(interests: seq<string>, x: string)
    requires Distinct(interests)
    ensures Distinct(Toggle(interests, x))
  {
    if x in interests {
      FilterDistinct(IsNot(x), interests);
    }
  }

  lemma {:induction false} FilterDistinct(p: string -> bool, xs: seq<string>)
    requires Distinct(xs)
    ensures Distinct(Filter(p, xs))
  {
    if xs != [] {
      var rest := xs[1..];
      assert Distinct(rest);
      FilterDistinct(p, rest);
      var fr := Filter(p, rest);
      if p(xs[0]) {
        var r := [xs[0]] + fr;
        assert xs[0] !in rest;
        forall i, j | 0 <= i < j < |r| ensures r[i] != r[j] {
          if i == 0 {
            assert r[j] in fr;
          } else {
            assert r[i] == fr[i - 1] && r[j] == fr[j - 1];
          }
        }
      }
    }
  }

  /** The interest list and the "other" input after `handleAddOtherInterest`. */
  datatype OtherResult = OtherResult(interests: seq<string>, otherInterest: string)

  function AddOther(interests: seq<string>, text: string): OtherResult
  {
    var t := Trim(text);
    if t != "" && t !in interests then OtherResult(Toggle(interests, t), "") else OtherResult(interests, text)
  }

  /** A non-blank text not yet listed is appended trimmed and the input
      is cleared; otherwise nothing changes. The list never gains a
      blank entry or a repetition. */
  lemma AddOtherSpec(interests: seq<string>, text: string)
    ensures var r := AddOther(interests, text);
            var t := Trim(text);
            && (t != "" && t !in interests ==> r.interests == interests + [t] && r.otherInterest == "")
            && (t == "" || t in interests ==> r == OtherResult(interests, text))
            && (Distinct(interests) ==> Distinct(r.interests))
            && (forall y :: y in r.interests && y !in interests ==> y == t && y != "")
  {
    var t := Trim(text);
    if t != "" && t !in interests && Distinct(interests) {
      ToggleDistinct(interests, t);
    }
  }

  /** `nextStep`: `Math.min(prev + 1, 4)`. */
  function NextStepValue(step: int): int
  {
    if step + 1 < 4 then step + 1 else 4
  }

  /** `prevStep`: `Math.max(prev - 1, 1)`. */
  function PrevStepValue(step: int): int
  {
    if step - 1 > 1 then step - 1 else 1
  }

  /** The wizard's step stays within 1..4: next advances by one up to
      step 4 and stays there, previous goes back by one down to step 1. */
  lemma StepBounds(step: int)
    requires 1 <= step <= 4
    ensures 1 <= NextStepValue(step) <= 4 && 1 <= PrevStepValue(step) <= 4
    ensures NextStepValue(step) == (if step == 4 then 4 else step + 1)
    ensures PrevStepValue(step) == (if step == 1 then 1 else step - 1)
  {
  }

  // ---------------------------------------------------------------------
  // The form's state

  /** The profile the form starts from. */
  const InitialData: AssessmentData :=
    AssessmentData("Current Student", "CSE", 8.0, [], [], 50)

  /** The state of the form component: the wizard step, the profile being
      edited, the "other interest" input and the field picker. */
  class AssessmentForm {
    var step: int
    var data: AssessmentData
    var otherInterest: string
    var fieldSearch: string
    var isFieldOpen: bool

    /** The step is one of the four pages of the wizard, no skill is rated
        twice and no interest is listed twice. */
    ghost predicate Valid()
      reads this
    {
      1 <= step <= 4 && UniqueNames(data.skills) && Distinct(data.interests)
    }

    constructor()
      ensures Valid() && step == 1 && data == InitialData
      ensures otherInterest == "" && fieldSearch == "" && !isFieldOpen
    {
      step := 1;
      data := InitialData;
      otherInterest := "";
      fieldSearch := "";
      isFieldOpen := false;
    }

    /** The options the field picker shows. */
    function VisibleFields(): seq<FieldOption>
      reads this
    {
      FilteredFields(fieldSearch)
    }

    /** What steps 2 and 3 show for the selected field. */
    function Content(): FieldContent
      reads this
    {
      FilteredContent(data.field)
    }

    method NextStep()
      requires Valid()
      modifies this
      ensures Valid() && step == NextStepValue(old(step))
      ensures data == old(data) && otherInterest == old(otherInterest)
      ensures fieldSearch == old(fieldSearch) && isFieldOpen == old(isFieldOpen)
    {
      step := if step + 1 < 4 then step + 1 else 4;
    }

    method PrevStep()
      requires Valid()
      modifies this
      ensures Valid() && step == PrevStepValue(old(step))
      ensures data == old(data) && otherInterest == old(otherInterest)
      ensures fieldSearch == old(fieldSearch) && isFieldOpen == old(isFieldOpen)
    {
      step := if step - 1 > 1 then step - 1 else 1;
    }

    /** `handleSkillChange`; the overwrite of an existing entry is an index
        write into a copy of the list. */
    method ChangeSkill(name: string, rating: int)
      requires Valid()
      modifies this
      ensures Valid()
      ensures data == old(data).(skills := SkillChange(old(data.skills), name, rating))
      ensures step == old(step) && otherInterest == old(otherInterest)
      ensures fieldSearch == old(fieldSearch) && isFieldOpen == old(isFieldOpen)
    {
      SkillChangeUnique(data.skills, name, rating);
      var existingIndex := FindSkill(data.skills, name);
      if rating == 0 {
        if existingIndex == -1 {
          return;
        }
        data := data.(skills := Filter(NameIsNot(name), data.skills));
        return;
      }
      if existingIndex != -1 {
        var newSkills := data.skills;
        newSkills := newSkills[existingIndex := SkillRating(name, rating)];
        data := data.(skills := newSkills);
        return;
      }
      data := data.(skills := data.skills + [SkillRating(name, rating)]);
    }

    /** `handleInterestToggle`. */
    method ToggleInterest(interest: string)
      requires Valid()
      modifies this
      ensures Valid()
      ensures data == old(data).(interests := Toggle(old(data.interests), interest))
      ensures step == old(step) && otherInterest == old(otherInterest)
      ensures fieldSearch == old(fieldSearch) && isFieldOpen == old(isFieldOpen)
    {
      ToggleDistinct(data.interests, interest);
      data := data.(interests := Toggle(data.interests, interest));
    }

    /** Typing into the "other interest" input. */
    method TypeOtherInterest(text: string)
      requires Valid()
      modifies this
      ensures Valid()
      ensures otherInterest == text
      ensures data == old(data) && step == old(step)
      ensures fieldSearch == old(fieldSearch) && isFieldOpen == old(isFieldOpen)
    {
      otherInterest := text;
    }

    /** `handleAddOtherInterest`. */
    method AddOtherInterest()
      requires Valid()
      modifies this
      ensures Valid()
      ensures data == old(data).(interests := AddOther(old(data.interests), old(otherInterest)).interests)
      ensures otherInterest == AddOther(old(data.interests), old(otherInterest)).otherInterest
      ensures step == old(step) && fieldSearch == old(fieldSearch) && isFieldOpen == old(isFieldOpen)
    {
      var t := Trim(otherInterest);
      if t != "" && t !in data.interests {
        ToggleInterest(t);
        otherInterest := "";
      }
    }

    /** Typing into the field picker's search box. */
    method SearchFields(text: string)
      requires Valid()
      modifies this
      ensures Valid()
      ensures fieldSearch == text
      ensures data == old(data) && step == old(step)
      ensures otherInterest == old(otherInterest) && isFieldOpen == old(isFieldOpen)
    {
      fieldSearch := text;
    }

    /** Picking a field: the profile's interests and skills are reset, the
        picker closes and its search is cleared. */
    method SelectField(id: string)
      requires Valid()
      modifies this
      ensures Valid()
      ensures data == old(data).(field := id, interests := [], skills := [])
      ensures !isFieldOpen && fieldSearch == ""
      ensures step == old(step) && otherInterest == old(otherInterest)
    {
      data := data.(field := id, interests := [], skills := []);
      isFieldOpen := false;
      fieldSearch := "";
    }

    /** The picker's button opens a closed picker and closes an open one. */
    method ToggleFieldPicker()
      requires Valid()
      modifies this
      ensures Valid() && isFieldOpen == !old(isFieldOpen)
      ensures data == old(data) && step == old(step)
      ensures otherInterest == old(otherInterest) && fieldSearch == old(fieldSearch)
    {
      isFieldOpen := !isFieldOpen;
    }

    /** A click outside the picker closes it. */
    method CloseFieldPicker()
      requires Valid()
      modifies this
      ensures Valid() && !isFieldOpen
      ensures data == old(data) && step == old(step)
      ensures otherInterest == old(otherInterest) && fieldSearch == old(fieldSearch)
    {
      isFieldOpen := false;
    }

    /** The user-type buttons of step 1. */
    method SetUserType(userType: string)
      requires Valid()
      modifies this
      ensures Valid() && data == old(data).(userType := userType)
      ensures step == old(step) && otherInterest == old(otherInterest)
      ensures fieldSearch == old(fieldSearch) && isFieldOpen == old(isFieldOpen)
    {
      data := data.(userType := userType);
    }

    /** The CGPA input of step 1, already parsed. */
    method SetCgpa(cgpa: real)
      requires Valid()
      modifies this
      ensures Valid() && data == old(data).(cgpa := cgpa)
      ensures step == old(step) && otherInterest == old(otherInterest)
      ensures fieldSearch == old(fieldSearch) && isFieldOpen == old(isFieldOpen)
    {
      data := data.(cgpa := cgpa);
    }

    /** The aptitude slider of step 4, already parsed. */
    method SetAptitude(score: int)
      requires Valid()
      modifies this
      ensures Valid() && data == old(data).(aptitudeScore := score)
      ensures step == old(step) && otherInterest == old(otherInterest)
      ensures fieldSearch == old(fieldSearch) && isFieldOpen == old(isFieldOpen)
    {
      data := data.(aptitudeScore := score);
    }
  }
}
