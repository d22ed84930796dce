/** `validateAndFixSkills` of services/gemini.ts: re-partitions every
    recommendation's `skillsHave` / `skillsMissing` against the profile's
    strengths (skills rated 2 or more), deduplicates ignoring case, restores
    the profile's casing and caps the missing list at six entries. */
module Reconciler {
  import opened Text
  import opened Seqs
  import opened Types

  /** `userStrengths`: the lower-cased names of skills rated 2 or more. */
  function Strengths(skills: seq<SkillRating>): (st: set<string>)
    ensures forall k :: k in st <==> exists s :: s in skills && s.rating >= 2 && Lower(s.name) == k
  {
    set s | s in skills && s.rating >= 2 :: Lower(s.name)
  }

  /** `skillNameMap` after the `forEach`: lower-case name to profile name,
      a later entry overwriting an earlier one. */
  function NameMap(skills: seq<SkillRating>): (m: map<string, string>)
    ensures forall k :: k in m <==> exists i :: 0 <= i < |skills| && Lower(skills[i].name) == k
    ensures forall k :: k in m ==> Lower(m[k]) == k
  {
    if skills == [] then map[]
    else
      var pre := skills[..|skills| - 1];
      var s := skills[|skills| - 1];
      assert forall i :: 0 <= i < |pre| ==> pre[i] == skills[i];
      LowerIdempotent(s.name);
      NameMap(pre)[Lower(s.name) := s.name]
  }

  /** The entry at index `i` is the last one whose lower-case name is `k`. */
  ghost predicate LastWithKey(skills: seq<SkillRating>, i: int, k: string)
  {
    0 <= i < |skills| && Lower(skills[i].name) == k
    && forall j :: i < j < |skills| ==> Lower(skills[j].name) != k
  }

  /** The display name of a key is the name of the LAST profile entry with
      that lower-case form. */
  lemma {:induction false} NameMapLastWins(skills: seq<SkillRating>, k: string)
    requires k in NameMap(skills)
    ensures exists i :: LastWithKey(skills, i, k) && NameMap(skills)[k] == skills[i].name
  {
    var n := |skills| - 1;
    var pre := skills[..n];
    var s := skills[n];
    assert NameMap(skills) == NameMap(pre)[Lower(s.name) := s.name];
    if Lower(s.name) != k {
      NameMapLastWins(pre, k);
      var i :| LastWithKey(pre, i, k) && NameMap(pre)[k] == pre[i].name;
      LastWithKeyExtend(skills, i, k);
    } else {
      assert LastWithKey(skills, n, k);
    }
  }

  /** The last entry with key `k` before a final entry with another key is
      still the last one. */
  lemma LastWithKeyExtend(skills: seq<SkillRating>, i: int, k: string)
    requires skills != [] && LastWithKey(skills[..|skills| - 1], i, k)
    requires Lower(skills[|skills| - 1].name) != k
    ensures LastWithKey(skills, i, k) && skills[i] == skills[..|skills| - 1][i]
  {
    var pre := skills[..|skills| - 1];
    forall j | i < j < |skills| ensures Lower(skills[j].name) != k {
      if j < |pre| { assert skills[j] == pre[j]; }
    }
  }

  /** The `forEach` that fills `skillNameMap`. */
  method BuildSkillNameMap(skills: seq<SkillRating>) returns (m: map<string, string>)
    ensures m == NameMap(skills)
  {
    m := map[];
    var i := 0;
    while i < |skills|
      invariant 0 <= i <= |skills|
      invariant m == NameMap(skills[..i])
    {
      assert skills[..i + 1][..i] == skills[..i];
      m := m[Lower(skills[i].name) := skills[i].name];
      i := i + 1;
    }
    assert skills[..i] == skills;
  }

  /** `skillNameMap.get(s) || s`: the profile's casing when there is one,
      otherwise `s` itself (an empty display name is falsy and also gives `s`). */
  function Display(m: map<string, string>, s: string): string
  {
    if s in m && m[s] != "" then m[s] else s
  }

  function DisplayIn(m: map<string, string>): string -> string
  {
    s => Display(m, s)
  }

  function IsStrength(st: set<string>): string -> bool
  {
    x => Lower(x) in st
  }

  function NotStrength(st: set<string>): string -> bool
  {
    x => Lower(x) !in st
  }

  function LowerAll(xs: seq<string>): seq<string>
  {
    Map(Lower, xs)
  }

  /** "Deduplicate and fix casing":
      `Array.from(new Set(xs.map(s => s.toLowerCase()))).map(s => skillNameMap.get(s) || s)`. */
  function Normalize(m: map<string, string>, xs: seq<string>): seq<string>
  {
    Map(DisplayIn(m), Dedup(LowerAll(xs)))
  }

  /** The raw entries that are strengths, `skillsHave` first. */
  function StrongEntries(st: set<string>, rec: AIRecommendation): seq<string>
  {
    Filter(IsStrength(st), rec.skillsHave) + Filter(IsStrength(st), rec.skillsMissing)
  }

  /** The raw entries that are not strengths, `skillsMissing` first. */
  function WeakEntries(st: set<string>, rec: AIRecommendation): seq<string>
  {
    Filter(NotStrength(st), rec.skillsMissing) + Filter(NotStrength(st), rec.skillsHave)
  }

  /** The callback of `recommendations.map` for fixed strengths and names. */
  function FixSkills(st: set<string>, m: map<string, string>, rec: AIRecommendation): AIRecommendation
  {
    rec.(skillsHave := Normalize(m, StrongEntries(st, rec)),
         skillsMissing := Take(Normalize(m, WeakEntries(st, rec)), 6))
  }

  /** `validateAndFixSkills(data, recommendations)`. */
  function Reconcile(data: AssessmentData, recs: seq<AIRecommendation>): (out: seq<AIRecommendation>)
    ensures |out| == |recs|
    ensures forall i :: 0 <= i < |recs| ==>
      out[i].roleName == recs[i].roleName && out[i].matchPercentage == recs[i].matchPercentage
      && out[i].reasons == recs[i].reasons && out[i].priority == recs[i].priority
      && out[i].roadmap == recs[i].roadmap && out[i].resourceLinks == recs[i].resourceLinks
  {
    var st := Strengths(data.skills);
    var m := NameMap(data.skills);
    seq(|recs|, i requires 0 <= i < |recs| => FixSkills(st, m, recs[i]))
  }

  /** `validateAndFixSkills` with its imperatively built name map. */
  method ValidateAndFixSkills(data: AssessmentData, recs: seq<AIRecommendation>) returns (out: seq<AIRecommendation>)
    ensures out == Reconcile(data, recs)
  {
    var userStrengths := Strengths(data.skills);
    var skillNameMap := BuildSkillNameMap(data.skills);
    out := seq(|recs|, i requires 0 <= i < |recs| => FixSkills(userStrengths, skillNameMap, recs[i]));
  }

  /** Every display name lower-cases to its key. */
  ghost predicate KeysLower(m: map<string, string>)
  {
    forall k :: k in m ==> Lower(m[k]) == k
  }

  /** Restoring the casing does not change the lower-case form of a
      lower-case name. */
  lemma DisplayLower(m: map<string, string>, s: string)
    requires KeysLower(m) && Lower(s) == s
    ensures Lower(Display(m, s)) == s
  {
  }

  /** The lower-case forms of a normalised list are the distinct lower-case
      forms of the input, in order of first appearance. */
  lemma NormalizeLower(m: map<string, string>, xs: seq<string>)
    requires KeysLower(m)
    ensures LowerAll(Normalize(m, xs)) == Dedup(LowerAll(xs))
  {
    var d := Dedup(LowerAll(xs));
    var r := Normalize(m, xs);
    forall i | 0 <= i < |d| ensures Lower(r[i]) == d[i] {
      assert d[i] in LowerAll(xs);
      var j :| 0 <= j < |xs| && LowerAll(xs)[j] == d[i];
      LowerIdempotent(xs[j]);
      DisplayLower(m, d[i]);
    }
  }

  /** Every entry of a normalised list is, ignoring case, some input entry. */
  lemma NormalizeFrom(m: map<string, string>, xs: seq<string>, e: string)
    requires KeysLower(m) && e in Normalize(m, xs)
    ensures exists x :: x in xs && Lower(x) == Lower(e)
  {
    var r := Normalize(m, xs);
    var i :| 0 <= i < |r| && r[i] == e;
    NormalizeLower(m, xs);
    assert Lower(e) == LowerAll(r)[i];
    assert Lower(e) in LowerAll(xs);
    var j :| 0 <= j < |xs| && LowerAll(xs)[j] == Lower(e);
    assert xs[j] in xs;
  }

  /** Each normalised entry is written as the profile writes it when the
      profile has that skill, and in lower case otherwise. */
  lemma NormalizeCasing(m: map<string, string>, xs: seq<string>, e: string)
    requires KeysLower(m) && e in Normalize(m, xs)
    ensures Lower(e) in m && m[Lower(e)] != "" ==> e == m[Lower(e)]
    ensures !(Lower(e) in m && m[Lower(e)] != "") ==> e == Lower(e)
  {
    var d := Dedup(LowerAll(xs));
    var r := Normalize(m, xs);
    var i :| 0 <= i < |r| && r[i] == e;
    assert d[i] in LowerAll(xs);
    var j :| 0 <= j < |xs| && LowerAll(xs)[j] == d[i];
    LowerIdempotent(xs[j]);
    DisplayLower(m, d[i]);
  }

  /** The reconciled `skillsHave` of one recommendation: only strengths,
      every strength the recommendation names anywhere, no case-insensitive
      repetition; its lower-case forms are the distinct lower-case forms of
      the strength entries (`skillsHave` ones first) in order of first
      occurrence. */
  lemma {:induction false} FixHave(st: set<string>, m: map<string, string>, rec: AIRecommendation)
    requires KeysLower(m)
    ensures var h := FixSkills(st, m, rec).skillsHave;
            && (forall e :: e in h ==> Lower(e) in st)
            && LowerAll(h) == Dedup(LowerAll(StrongEntries(st, rec)))
            && (forall k :: k in LowerAll(h) <==>
                  k in st && exists x :: (x in rec.skillsHave || x in rec.skillsMissing) && Lower(x) == k)
            && Distinct(LowerAll(h))
  {
    var se := StrongEntries(st, rec);
    var h := FixSkills(st, m, rec).skillsHave;
    assert h == Normalize(m, se);
    NormalizeLower(m, se);
    forall e | e in h ensures Lower(e) in st {
      NormalizeFrom(m, se, e);
    }
    forall k ensures k in LowerAll(h) <==>
        k in st && exists x :: (x in rec.skillsHave || x in rec.skillsMissing) && Lower(x) == k {
      if k in LowerAll(h) {
        var j :| 0 <= j < |LowerAll(se)| && LowerAll(se)[j] == k;
        assert se[j] in se;
      }
      if k in st && exists x :: (x in rec.skillsHave || x in rec.skillsMissing) && Lower(x) == k {
        var x :| (x in rec.skillsHave || x in rec.skillsMissing) && Lower(x) == k;
        assert x in se;
        var j :| 0 <= j < |se| && se[j] == x;
        assert LowerAll(se)[j] == k;
      }
    }
  }

  /** The reconciled `skillsMissing` of one recommendation: no strengths,
      the first six distinct lower-case forms of the non-strength entries
      (missing ones first), no case-insensitive repetition. */
  lemma {:induction false} FixMissing(st: set<string>, m: map<string, string>, rec: AIRecommendation)
    requires KeysLower(m)
    ensures var ms := FixSkills(st, m, rec).skillsMissing;
            && (forall e :: e in ms ==> Lower(e) !in st)
            && LowerAll(ms) == Take(Dedup(LowerAll(WeakEntries(st, rec))), 6)
            && Distinct(LowerAll(ms))
            && |ms| <= 6
  {
    var we := WeakEntries(st, rec);
    var wn := Normalize(m, we);
    var ms := FixSkills(st, m, rec).skillsMissing;
    assert ms == Take(wn, 6);
    NormalizeLower(m, we);
    forall e | e in ms ensures Lower(e) !in st {
      assert e in wn;
      NormalizeFrom(m, we, e);
    }
    MapTake(Lower, wn, 6);
  }

  /** The result for one recommendation: `skillsHave` holds exactly the
      strengths named anywhere in the recommendation and `skillsMissing`
      only non-strengths, each list free of case-insensitive repetitions,
      the missing list at most six long. Both lists keep the order of first
      occurrence: strengths from `skillsHave` then from `skillsMissing`, and
      the other entries from `skillsMissing` then from `skillsHave`. */
  lemma ReconcilePartition(data: AssessmentData, recs: seq<AIRecommendation>, i: int)
    requires 0 <= i < |recs|
    ensures var st := Strengths(data.skills);
            var o := Reconcile(data, recs)[i];
            && (forall e :: e in o.skillsHave ==> Lower(e) in st)
            && LowerAll(o.skillsHave) == Dedup(LowerAll(StrongEntries(st, recs[i])))
            && (forall e :: e in o.skillsMissing ==> Lower(e) !in st)
            && (forall k :: k in LowerAll(o.skillsHave) <==>
                  k in st && exists x :: (x in recs[i].skillsHave || x in recs[i].skillsMissing) && Lower(x) == k)
            && LowerAll(o.skillsMissing) == Take(Dedup(LowerAll(WeakEntries(st, recs[i]))), 6)
            && Distinct(LowerAll(o.skillsHave)) && Distinct(LowerAll(o.skillsMissing))
            && |o.skillsMissing| <= 6
  {
    var st := Strengths(data.skills);
    var m := NameMap(data.skills);
    assert Reconcile(data, recs)[i] == FixSkills(st, m, recs[i]);
    FixHave(st, m, recs[i]);
    FixMissing(st, m, recs[i]);
  }

  /** Every reconciled name is written as in the profile when the profile
      names that skill (the last such entry), and in lower case otherwise. */
  lemma ReconcileCasing(data: AssessmentData, recs: seq<AIRecommendation>, i: int, e: string)
    requires 0 <= i < |recs|
    requires e in Reconcile(data, recs)[i].skillsHave || e in Reconcile(data, recs)[i].skillsMissing
    ensures var m := NameMap(data.skills);
            && (Lower(e) in m && m[Lower(e)] != "" ==> e == m[Lower(e)])
            && (!(Lower(e) in m && m[Lower(e)] != "") ==> e == Lower(e))
  {
    var st := Strengths(data.skills);
    var m := NameMap(data.skills);
    var o := Reconcile(data, recs)[i];
    assert o == FixSkills(st, m, recs[i]);
    if e in o.skillsHave {
      NormalizeCasing(m, StrongEntries(st, recs[i]), e);
    } else {
      NormalizeCasing(m, WeakEntries(st, recs[i]), e);
    }
  }

  /** A profile without strengths leaves every `skillsHave` empty. */
  lemma ReconcileNoStrengths(data: AssessmentData, recs: seq<AIRecommendation>)
    requires forall s :: s in data.skills ==> s.rating < 2
    ensures forall i :: 0 <= i < |recs| ==> Reconcile(data, recs)[i].skillsHave == []
  {
    var st := Strengths(data.skills);
    assert st == {};
    forall i | 0 <= i < |recs| ensures Reconcile(data, recs)[i].skillsHave == [] {
      FilterNone(IsStrength(st), recs[i].skillsHave);
      FilterNone(IsStrength(st), recs[i].skillsMissing);
      assert StrongEntries(st, recs[i]) == [];
    }
  }

  /** The reconciled `skillsHave` holds only strengths and is already
      normalised. */
  lemma {:induction false} HaveFixed(st: set<string>, m: map<string, string>, rec: AIRecommendation)
    requires KeysLower(m)
    ensures var h := FixSkills(st, m, rec).skillsHave;
            (forall x :: x in h ==> IsStrength(st)(x)) && Normalize(m, h) == h
  {
    var se := StrongEntries(st, rec);
    var h := Normalize(m, se);
    forall x | x in h ensures IsStrength(st)(x) {
      NormalizeFrom(m, se, x);
    }
    NormalizeLower(m, se);
    DedupIdempotent(LowerAll(se));
  }

  /** The reconciled `skillsMissing` holds no strength and is already
      normalised and short enough. */
  lemma {:induction false} MissingFixed(st: set<string>, m: map<string, string>, rec: AIRecommendation)
    requires KeysLower(m)
    ensures var ms := FixSkills(st, m, rec).skillsMissing;
            (forall x :: x in ms ==> !IsStrength(st)(x)) && Take(Normalize(m, ms), 6) == ms
  {
    var we := WeakEntries(st, rec);
    var wn := Normalize(m, we);
    var ms := Take(wn, 6);
    forall x | x in ms ensures !IsStrength(st)(x) {
      assert x in wn;
      NormalizeFrom(m, we, x);
    }
    var dw := Dedup(LowerAll(we));
    NormalizeLower(m, we);
    MapTake(Lower, wn, 6);
    assert LowerAll(ms) == Take(dw, 6);
    TakeDistinct(dw, 6);
    DedupDistinct(Take(dw, 6));
    MapTake(DisplayIn(m), dw, 6);
    assert Normalize(m, ms) == ms;
  }

  /** Reconciling an already reconciled list changes nothing. */
  lemma {:induction false} FixSkillsIdempotent(st: set<string>, m: map<string, string>, rec: AIRecommendation)
    requires KeysLower(m)
    ensures FixSkills(st, m, FixSkills(st, m, rec)) == FixSkills(st, m, rec)
  {
    var rec1 := FixSkills(st, m, rec);
    var h := rec1.skillsHave;
    var ms := rec1.skillsMissing;
    HaveFixed(st, m, rec);
    MissingFixed(st, m, rec);
    FilterAll(IsStrength(st), h);
    FilterNone(IsStrength(st), ms);
    FilterAll(NotStrength(st), ms);
    FilterNone(NotStrength(st), h);
    assert StrongEntries(st, rec1) == h;
    assert WeakEntries(st, rec1) == ms;
  }

  lemma ReconcileIdempotent(data: AssessmentData, recs: seq<AIRecommendation>)
    ensures Reconcile(data, Reconcile(data, recs)) == Reconcile(data, recs)
  {
    var st := Strengths(data.skills);
    var m := NameMap(data.skills);
    var once := Reconcile(data, recs);
    forall i | 0 <= i < |recs| ensures Reconcile(data, once)[i] == once[i] {
      FixSkillsIdempotent(st, m, recs[i]);
    }
  }

  /** A strength that the raw recommendation lists as missing ends up in
      `skillsHave` and nowhere in `skillsMissing`. */
  lemma ReconcileMovesStrength(data: AssessmentData, recs: seq<AIRecommendation>, i: int, s: SkillRating, x: string)
    requires 0 <= i < |recs|
    requires s in data.skills && s.rating >= 2
    requires x in recs[i].skillsMissing && Lower(x) == Lower(s.name)
    ensures Lower(s.name) in LowerAll(Reconcile(data, recs)[i].skillsHave)
    ensures forall e :: e in Reconcile(data, recs)[i].skillsMissing ==> Lower(e) != Lower(s.name)
  {
    ReconcilePartition(data, recs, i);
    assert Lower(s.name) in Strengths(data.skills);
  }
}
