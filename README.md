# Career Compass recommendation core, modelled in Dafny

Career Compass is a web application. A student fills in an assessment:
field of study, interests and self-rated skills (0 to 5). The app
recommends three career roles, each with the skills the student has, the
skills they lack, a four-week roadmap and resource links. This project
models the logic behind that:

- **Fallback engine** (`Fallback`, `Catalog`): `getFallbackRecommendations`.
  - It scores each of the nine catalogue career paths against the profile:
    - 5 points per rating level for a skill that matches a keyword, ignoring case;
    - 20 points for each interest listed among the path's tags.
  - It keeps the three best with a stable descending sort.
  - It gives match percentages 95 − 7·rank − jitter, and derives strengths and gaps from the ratings.
  - The scoring loops are a method, `ScorePath`, proved against the
    functional definition `PathScore`. The catalogue pass is
    `GetFallbackRecommendations`, proved against `FallbackSpec`.
- **Reconciler** (`Reconciler`): `validateAndFixSkills`.
  - It re-partitions a generated recommendation's `skillsHave` and
    `skillsMissing` by the profile's strengths (skills rated 2 or more).
  - It removes case-insensitive duplicates, keeping first-occurrence order.
  - It restores the profile's casing and caps the missing list at six.
  - The name map is built by a loop, `BuildSkillNameMap`.
- **Dispatch** (`Gemini`): `getCareerRecommendations`.
  - It runs in demo mode when no API key is set.
  - Otherwise the service's reply is reconciled.
  - Every failure falls back to the engine. The service's outcome is a parameter.
- **Assessment form** (`Assessment`):
  - the field picker and the content it selects;
  - the profile-editing reducers (skills, interests, wizard step);
  - the form's state as a class whose methods apply those reducers.
- **Role library** (`Roles`): the multi-keyword search with domain and
  level filters, the domain list, and clearing the filters.
- **App session** (`App`): a class over page, user, assessment,
  recommendations and the sync indicator, with the navigation guard,
  login, session restore, logout and assessment completion. The handlers
  that await storage are split at the await. Stored recommendations are
  sorted best first.

Supporting modules:

- `Text`: ASCII lower-casing, ECMAScript whitespace trimming, splitting and substring search.
- `Seqs`: filter, map, subsequence and first-occurrence deduplication (JavaScript's `new Set` order).
- `Sorting`: a stable descending insertion sort. It stands for `Array.prototype.sort` with a numeric comparator, which is stable.
- `Types` and `Constants`: the record shapes of `types.ts` and the data of `constants.ts`.

## Model

| member | source | states |
|---|---|---|
| Catalog.CatalogWellFormed | services/gemini.ts:11-75 | The catalogue has nine paths. Each has at least three keywords, an interest tag and a non-empty baseline gap list, which the templates and the gap rule read. |
| Fallback.MatchedNames | services/gemini.ts:84-90 | A name is matched exactly when some profile skill has it and it equals a path keyword ignoring case. |
| Fallback.ScorePath | services/gemini.ts:79-100 | The two `forEach` loops compute the path's score and match list. The score is `PathScore`: 5 × rating summed over skills matching a keyword ignoring case, plus 20 per interest found among the tags. |
| Fallback.SkillPointsBounds | services/gemini.ts:84-90 | With ratings 1..5, skill points are at least 5 per matched skill. |
| Fallback.InterestPointsCount | services/gemini.ts:93-97 | Interest points are 20 times the number of profile interests found, compared exactly, among the path's tags. |
| Fallback.ScoreCatalog | services/gemini.ts:79-100 | Every catalogue path is scored, in catalogue order. |
| Fallback.Ranked | services/gemini.ts:104-105 | The ranking has one entry per catalogue path. |
| Fallback.RankedFromCatalog | services/gemini.ts:99-105 | Every ranked entry is a catalogue path carrying its own score and matches. |
| Fallback.RankedOrder | services/gemini.ts:104-105 | The ranking is a permutation of the scored catalogue and is non-increasing in score. Paths with equal scores keep catalogue order (stable sort). |
| Fallback.LeftOutScoresLess | services/gemini.ts:104-106 | A path not among the first three ranks scores no more than the third. |
| Fallback.FallbackRanking | services/gemini.ts:104-106 | The three recommended paths are catalogue paths with their own scores. Every path left out scores no more than the third. |
| Fallback.MatchPercentage | services/gemini.ts:113-114 | For ranks 0..2 and jitter 0..3, `min(95 − 7·rank − jitter, 98)` is 95 − 7·rank − jitter, between 78 and 95. The `min` never applies. |
| Fallback.GetFallbackRecommendations | services/gemini.ts:77-180 | Exactly three recommendations, equal to `FallbackSpec`: rank i is built from the i-th ranked path with jitter i. |
| Fallback.FallbackEntry | services/gemini.ts:109-147 | Recommendation i names the i-th ranked role. Its `skillsHave` and `skillsMissing` are the strengths and gaps of that path. |
| Fallback.RecommendationShape | services/gemini.ts:136-178 | Each recommendation has: the role, the stepped percentage, three reasons (the second naming the field, the third the description), four weeks numbered 1..4, two links, no priority list and 1..4 gaps. |
| Fallback.FallbackShapeAt | services/gemini.ts:113-177 | Recommendation i has percentage 95 − 7i − jitter[i], three reasons, four weeks, two links and 1..4 gaps. |
| Fallback.FallbackPercentagesDecrease | services/gemini.ts:113-114 | Percentages strictly decrease with rank for every jitter draw. |
| Fallback.HaveNamesSpec | services/gemini.ts:119-121 | `skillsHave` holds exactly the names of profile skills rated ≥ 2 matching a keyword ignoring case, as a subsequence of the profile names. It has one entry per such skill, so a repeated profile name is listed as often as it qualifies. When a name is repeated with different ratings, these facts leave the order open; the assessment form keeps names unique (`Assessment.SkillChangeUnique`), so such profiles do not arise from it. |
| Fallback.MissingSpec | services/gemini.ts:125-147 | `skillsMissing` is a prefix of at most 4 of: weak (≤ 1) matching skills, then keywords no profile skill names ignoring case, then the baseline gaps. It is never empty, so the `slice(0, 3)` alternative never applies. Every entry comes from one of the three sources. |
| Fallback.MissingExcludes | services/gemini.ts:125-134 | A name that matches no keyword and is no baseline gap is never a gap. |
| Fallback.MissingWithoutSkills | services/gemini.ts:129-134 | With no skills, the gaps are the path's first four keywords. |
| Fallback.RankedEmptyProfile | services/gemini.ts:104-106 | With no skills and no interests, every score is 0 and the ranking is the catalogue order. |
| Fallback.EmptyProfileEntry | services/gemini.ts:109-147 | With an empty profile, recommendation i is catalogue path i with no strengths and its first four keywords as gaps. |
| Fallback.LeadingRoles | services/gemini.ts:11-31 | The first three catalogue roles are Data Scientist, Frontend Developer and Backend Engineer. |
| Fallback.FallbackEmptyProfile | services/gemini.ts:77-180 | With empty inputs the fallback recommends Data Scientist, Frontend Developer and Backend Engineer, in that order. |
| FallbackExamples.PythonReactAimlScore | services/gemini.ts:83-97 | For {Python: 5, React: 1} with interest "AI/ML", a path scores 25 if it lists Python, plus 5 if it lists React, plus 20 if it is tagged "AI/ML". |
| FallbackExamples.PythonReactAimlScores | services/gemini.ts:11-97 | For that profile the nine catalogue scores are 45, 5, 25, 5, 0, 25, 45, 0, 0. |
| FallbackExamples.TopThree | services/gemini.ts:104-106 | Sorting those scores puts the paths at 0, 6 and 2 first, ties in catalogue order. |
| FallbackExamples.RankedPythonReactAiml | services/gemini.ts:104-106 | For that profile the ranking starts with catalogue paths 0, 6 and 2. |
| FallbackExamples.TopRolesPythonReactAiml | services/gemini.ts:11-106 | For that profile the top three roles are Data Scientist, AI/ML Engineer and Backend Engineer. |
| FallbackExamples.FallbackPythonReactAiml | services/gemini.ts:77-180 | For that profile the fallback recommends Data Scientist, AI/ML Engineer and Backend Engineer, each with exactly Python as a strength. |
| FallbackExamples.DataScientistGapsWithoutReact | services/gemini.ts:125-134 | For that profile the Data Scientist gaps do not list React: React is no Data Scientist keyword and no baseline gap. |
| Reconciler.Strengths | services/gemini.ts:282-284 | `userStrengths` holds exactly the lower-cased names of skills rated ≥ 2. |
| Reconciler.NameMap | services/gemini.ts:287-288 | The name map's keys are exactly the lower-cased profile names. Each value lower-cases to its key. |
| Reconciler.NameMapLastWins | services/gemini.ts:287-288 | A key maps to the name of the last profile entry with that lower-case form. |
| Reconciler.BuildSkillNameMap | services/gemini.ts:286-288 | The `forEach` over the skills builds `NameMap`. |
| Reconciler.Reconcile | services/gemini.ts:290-335 | Output length equals input length. Role, percentage, reasons, priority, roadmap and links of every entry pass through unchanged. |
| Reconciler.ValidateAndFixSkills | services/gemini.ts:279-336 | The method computes `Reconcile`. |
| Reconciler.NormalizeLower | services/gemini.ts:306-325 | Deduplicating and restoring casing gives a list whose lower-case forms are the distinct lower-case forms of the input, in first-occurrence order. |
| Reconciler.NormalizeCasing | services/gemini.ts:308-325 | An output name is the profile's spelling when the profile has that skill, otherwise the lower-cased name. |
| Reconciler.FixHave | services/gemini.ts:296-309 | The new `skillsHave` holds only strengths. Its lower-case forms are the distinct lower-case forms of the strength entries, `skillsHave` before `skillsMissing`, in first-occurrence order. They are exactly the strengths named anywhere in the recommendation, without repetition. |
| Reconciler.FixMissing | services/gemini.ts:313-333 | The new `skillsMissing` holds no strength. Its lower-case forms are the first six distinct lower-case forms of the non-strength entries, missing before have. |
| Reconciler.ReconcilePartition | services/gemini.ts:282-333 | For each entry: `skillsHave` holds exactly the strengths named in it and `skillsMissing` only non-strengths. In lower case `skillsHave` is the first-occurrence deduplication of the strengths from `skillsHave` then `skillsMissing`. `skillsMissing` is the first six of the same for the other entries, `skillsMissing` first. Neither list has case-insensitive duplicates, and `skillsMissing` has at most six entries. |
| Reconciler.ReconcileCasing | services/gemini.ts:287-325 | Every reconciled name is spelled as the profile's last entry for it, or lower-cased when the profile lacks it. |
| Reconciler.ReconcileNoStrengths | services/gemini.ts:296-309 | If no skill is rated ≥ 2, every `skillsHave` is empty. |
| Reconciler.FixSkillsIdempotent | services/gemini.ts:290-335 | Fixing an already fixed recommendation changes nothing. |
| Reconciler.ReconcileIdempotent | services/gemini.ts:279-336 | Reconciling twice is the same as reconciling once. |
| Reconciler.ReconcileMovesStrength | services/gemini.ts:300-315 | A strength listed as missing moves into `skillsHave` and leaves `skillsMissing`. |
| Gemini.KeyMissingIff | services/gemini.ts:185 | The key counts as missing exactly when it is unset or whitespace only. |
| Gemini.GetCareerRecommendations | services/gemini.ts:182-270 | Three branches. A missing key gives the fallback. A failed request, empty text or unparsable reply gives the unreconciled fallback. A parsed reply gives `validateAndFixSkills` of it. |
| Gemini.DemoIgnoresService | services/gemini.ts:185-190 | In demo mode the service's outcome does not affect the answer. |
| Gemini.FailureIsDemo | services/gemini.ts:259-268 | A failed or unusable reply gives exactly the demo-mode answer: three recommendations. |
| Gemini.ServiceAnswer | services/gemini.ts:262-263 | A usable reply keeps its length, roles and percentages. Its skill lists are split by the profile's strengths, with at most six gaps. |
| Gemini.FallbackNotReconciled | services/gemini.ts:265-269 | The fallback answer is not reconciled, and reconciling it would change it. For an empty profile, the gap "Python" would become "python". |
| Roles.Keywords | components/Roles.tsx:39 | Search keywords are non-empty and contain no space. |
| Roles.FilteredRolesSpec | components/Roles.tsx:36-52 | A role is listed exactly when it is in the library and passes search, domain and level. The listing is a subsequence of `ALL_ROLES` in original order. |
| Roles.BlankSearch | components/Roles.tsx:39-40 | An empty or all-spaces search has no keywords and matches every role. |
| Roles.KeywordsAround | components/Roles.tsx:39 | The keywords of `a + " " + b` are those of `a` followed by those of `b`. |
| Roles.MoreKeywordsNarrow | components/Roles.tsx:40-45 | A role matching a search with one more word matches the shorter search. |
| Roles.MoreKeywordsSubseq | components/Roles.tsx:36-52 | Adding a search word gives a subsequence of the previous listing. |
| Roles.PlaceholderFilters | components/Roles.tsx:47-48 | 'All Domains' and 'All Levels' pass every role. Any other choice requires exact equality. |
| Roles.DomainsSpec | components/Roles.tsx:23 | `domains` is 'All Domains' followed by the deduplicated role domains: each library domain once, with nothing else, in order of first appearance in `ALL_ROLES`. |
| Roles.RoleDomains | components/Roles.tsx:23 | A domain is among the mapped domains exactly when some library role has it. |
| Roles.DomainChoiceNonEmpty | components/Roles.tsx:23-47 | Every offered domain, with search and level cleared, lists at least one role. |
| Roles.SeniorLevelEmpty | components/Roles.tsx:24-48 | 'Senior Level' lists no role, since no library role has that level. |
| Roles.BlankFiltersListAll | components/Roles.tsx:36-52 | An all-spaces search with both placeholders lists the whole library. |
| Roles.InactiveListsAll | components/Roles.tsx:62-68 | `isFilterActive` is false exactly for the `clearFilters` values, and then the listing is `ALL_ROLES`. |
| Roles.SpacesActiveButAll | components/Roles.tsx:39-68 | A search of one space counts as an active filter, yet lists every role. |
| Assessment.FilteredFieldsSpec | components/Assessment.tsx:63-68 | An option is offered exactly when its lower-cased label or id contains the lower-cased search, in option order. |
| Assessment.EmptyFieldSearch | components/Assessment.tsx:63-68 | The empty search offers every field option. |
| Assessment.FieldSearchIgnoresCase | components/Assessment.tsx:63-68 | Lower-casing the search does not change the offered options. |
| Assessment.FindField | components/Assessment.tsx:71 | `find` gives the first option with the id (no earlier option has it) when one exists, and nothing otherwise. |
| Assessment.SelectedField | components/Assessment.tsx:70-72 | The selected option is the one with the profile's field id, or the first option when none has it. |
| Assessment.FilteredInterestsSpec | components/Assessment.tsx:83-109 | Step 2 always offers some interest. A mapped field gets exactly its mapped interests, and an unmapped field gets all interests. |
| Assessment.CategoriesForSpec | components/Assessment.tsx:110-116 | The categories shown are never empty and keep catalogue order. No names give all categories. Names including the first category give exactly the named ones. |
| Assessment.FilteredCategoriesSpec | components/Assessment.tsx:96-116 | Step 3 always offers some category, in catalogue order. An unmapped field gets all categories; a mapped field gets exactly its mapped ones. |
| Assessment.InterestMappingNonEmpty | components/Assessment.tsx:83-94 | Every mapped field lists some interest. |
| Assessment.CategoryMappingHasFirst | components/Assessment.tsx:96-107 | Every mapped field lists "Programming", so the all-categories alternative applies only to unmapped fields. |
| Assessment.OtherFieldShowsAll | components/Assessment.tsx:93-116 | The "Other" field shows every interest and every category. |
| Assessment.FindSkill | components/Assessment.tsx:155 | `findIndex` gives the first entry with the name, or −1 when there is none. |
| Assessment.SkillChangeRemoves | components/Assessment.tsx:156-158 | Rating 0 removes every entry with exactly that name and keeps the rest in order. With no such entry the list is unchanged. |
| Assessment.SkillChangeReplaces | components/Assessment.tsx:160-163 | A non-zero rating for a listed skill overwrites its first entry in place. Length and every other entry are unchanged. |
| Assessment.SkillChangeAppends | components/Assessment.tsx:165 | A non-zero rating for an unlisted skill appends `{name, rating}`. |
| Assessment.SkillChangeUnique | components/Assessment.tsx:153-167 | From unique names, names stay unique. Afterwards the skill is absent (rating 0) or present with exactly the given rating. |
| Assessment.ToggleSpec | components/Assessment.tsx:137-144 | Toggling flips membership: a present interest loses every occurrence, an absent one is appended. The others are untouched and keep their order. |
| Assessment.ToggleTwice | components/Assessment.tsx:137-144 | Toggling an absent interest twice restores the list. |
| Assessment.ToggleDistinct | components/Assessment.tsx:137-144 | Toggling keeps a list free of repetitions. |
| Assessment.AddOtherSpec | components/Assessment.tsx:146-151 | Non-blank trimmed text not yet listed is appended and the input cleared; otherwise nothing changes. No blank entry or repetition is added. |
| Assessment.StepBounds | components/Assessment.tsx:134-135 | Next and previous keep the step in 1..4, moving by one and stopping at the ends. |
| Assessment.AssessmentForm.constructor | components/Assessment.tsx:35-51 | The form starts at step 1 with the initial profile, empty inputs and the picker closed. |
| Assessment.AssessmentForm.NextStep | components/Assessment.tsx:134 | The step becomes `min(step + 1, 4)`; nothing else changes. |
| Assessment.AssessmentForm.PrevStep | components/Assessment.tsx:135 | The step becomes `max(step − 1, 1)`; nothing else changes. |
| Assessment.AssessmentForm.ChangeSkill | components/Assessment.tsx:153-167 | Only the skills change, to `SkillChange`. Names stay unique. |
| Assessment.AssessmentForm.ToggleInterest | components/Assessment.tsx:137-144 | Only the interests change, to `Toggle`. They stay free of repetitions. |
| Assessment.AssessmentForm.TypeOtherInterest | components/Assessment.tsx:366 | The "other" input holds the typed text; nothing else changes. |
| Assessment.AssessmentForm.AddOtherInterest | components/Assessment.tsx:146-151 | Interests and input change as `AddOther` says; nothing else changes. |
| Assessment.AssessmentForm.SearchFields | components/Assessment.tsx:282 | The picker's search holds the typed text; nothing else changes. |
| Assessment.AssessmentForm.SelectField | components/Assessment.tsx:289-293 | The field is set, interests and skills are reset to empty, the picker closes and its search is cleared. |
| Assessment.AssessmentForm.ToggleFieldPicker | components/Assessment.tsx:260 | The picker flips between open and closed. |
| Assessment.AssessmentForm.CloseFieldPicker | components/Assessment.tsx:53-58 | A click outside closes the picker. |
| Assessment.AssessmentForm.SetUserType | components/Assessment.tsx:244 | Only the profile's user type changes. |
| Assessment.AssessmentForm.SetCgpa | components/Assessment.tsx:323 | Only the profile's CGPA changes. |
| Assessment.AssessmentForm.SetAptitude | components/Assessment.tsx:472 | Only the profile's aptitude score changes. |
| App.NavigateGuard | App.tsx:49-62 | A protected page without a user shows login. Results without an assessment shows the assessment. Home, roles, login and sign-up are never redirected. A protected page that `handleNavigate` shows implies a user, and results it shows imply an assessment. |
| App.SortByMatchSpec | App.tsx:93 | The stored order (also used at App.tsx:35 and App.tsx:74) is a permutation that is non-increasing in percentage. The first entry has the maximum percentage, and ties keep arrival order. |
| App.AppState.constructor | App.tsx:17-21 | No user, the home page, no assessment, no recommendations, not syncing. |
| App.AppState.TopPercentage | App.tsx:128 | `recommendations[0]?.matchPercentage` is absent exactly when there are none. Otherwise it is the maximum stored percentage. |
| App.AppState.HandleNavigate | App.tsx:49-64 | The page becomes `NavigateTarget`; user, assessment and recommendations are unchanged. The guard invariant is kept. |
| App.AppState.BeginLogin | App.tsx:66-71 | Up to the await: the user is set and the sync indicator shown; page, assessment and recommendations are unchanged. |
| App.AppState.FinishLogin | App.tsx:72-80 | After the await: a saved assessment is restored with its recommendations sorted, the sync indicator hidden and the dashboard made the current page. The user is whoever is signed in by then. |
| App.AppState.HandleLogin | App.tsx:66-81 | With nothing in between the two halves: the user is set, a saved assessment is restored with its recommendations sorted, and the dashboard is shown. |
| App.AppState.FinishLoginChecked | App.tsx:72-80 | The corrected resumption: it restores and sets the dashboard only while the same user is still signed in, so the dashboard never becomes the current page signed out. |
| App.LoginResumesSignedOut | App.tsx:66-89 | Sign in, then sign out before the fetch returns. The login resumes and makes the dashboard the current page with no user and the fetched assessment restored. |
| App.StaleAssessmentReachesNextUser | App.tsx:66-89 | After that sequence a second user signs in and their fetch finds nothing. They get the dashboard holding the previous user's assessment and that user's recommendations, sorted. |
| App.LoginLogoutChecked | App.tsx:66-89 | The same sequence with the corrected resumption ends on the home page, signed out, with nothing restored. |
| App.AppState.BeginRestore | App.tsx:26-32 | Up to the await of `initSession`: the stored user is set and the sync indicator shown. |
| App.AppState.FinishRestore | App.tsx:33-43 | After the await: a saved assessment is restored sorted, the sync indicator hidden, and the dashboard shown when the address is empty or `#home`. |
| App.AppState.RestoreSession | App.tsx:24-47 | With nothing in between the two halves, and a stored user: the user is set, a saved assessment is restored sorted, and the dashboard is shown when the address is empty or `#home`. Without one, nothing changes. |
| App.AppState.HandleLogout | App.tsx:83-89 | User and assessment are cleared, recommendations emptied, and the home page shown. |
| App.AppState.BeginAssessmentComplete | App.tsx:91-95 | Up to the save: the profile and the sorted recommendations are stored; page and user are unchanged. |
| App.AppState.FinishAssessmentComplete | App.tsx:102 | After the save: the results page becomes the current page, whatever is stored by then. |
| App.AppState.HandleAssessmentComplete | App.tsx:91-103 | With nothing in between the two halves: the profile and the sorted recommendations are stored and the results page becomes the current page. The user is unchanged. |
| App.ResultsSignedOutWithoutAssessment | App.tsx:83-102 | A signed-in user completes an assessment and signs out during the save. The handler resumes and makes the results page the current page with no user and no assessment. |
| App.AppState.ToggleAuth | App.tsx:135 | On the login or sign-up page, the page switches to the other one; nothing else changes. |
| App.AppState.Restart | App.tsx:146 | From the results page, the assessment page is shown directly, without the navigation guard; nothing else changes. |
| App.RestartSignedOut | App.tsx:83-146 | Sign in, open the assessment, sign out, let the pending answer complete, then retake. This ends on the assessment page with no user. |
| Text.Lower | services/gemini.ts:85 | Lower-casing keeps the length and maps each character by ASCII lower-casing. |
| Text.LowerIdempotent | services/gemini.ts:308 | Lower-casing twice equals lower-casing once. |
| Text.Trim | components/Assessment.tsx:147 | `trim()` (also the key check at services/gemini.ts:185): the trimmed text is the middle slice of the input. Only whitespace is cut from either end, and it neither starts nor ends with whitespace. |
| Text.TrimEmptyIff | services/gemini.ts:185 | Trimming gives the empty string exactly when the input is all whitespace. |
| Text.Split | components/Roles.tsx:39 | `split(' ')` gives at least one piece, and no piece holds the separator. |
| Text.JoinSplit | components/Roles.tsx:39 | Joining the pieces with the separator gives the input back. |
| Seqs.Dedup | components/Roles.tsx:23 | `new Set` order (also at services/gemini.ts:308): a repetition-free list with the same members. |
| Seqs.DedupOrder | services/gemini.ts:308 | Kept entries appear in order of first occurrence. |
| Sorting.SortDesc | services/gemini.ts:104-105 | The sort (also at App.tsx:93) is a permutation, non-increasing in the key. |
| Sorting.SortStable | services/gemini.ts:104-105 | Entries with equal keys keep their relative order. |
| Sorting.SortHeadIsMax | App.tsx:127-128 | The first entry of a sorted non-empty list has the maximum key. |

## Behaviour worth noting

- **The gaps alternative is dead.** The gaps list always ends with the
  path's baseline gaps before the cut to four (services/gemini.ts:134).
  Every catalogue path has at least one baseline gap, so the list is never
  empty and the `slice(0, 3)` alternative at services/gemini.ts:147 never
  applies (`Fallback.MissingSpec`).
- **The fallback answer is not reconciled.** On every failure path the
  answer is `getFallbackRecommendations(data)` as it is
  (services/gemini.ts:188, 268). Reconciling it would change it: names the
  profile lacks would be lower-cased, so "Python" among the Data Scientist
  gaps of an empty profile would become "python"
  (`Gemini.FallbackNotReconciled`).
- **React is no Data Scientist gap.** For the profile {Python: 5, React: 1}
  with "AI/ML", the Data Scientist recommendation does not list React among
  its gaps. React is neither a Data Scientist keyword nor one of its
  baseline gaps (`FallbackExamples.DataScientistGapsWithoutReact`).
- **Guarded pages after a logout.** `handleLogin`, `initSession` and a
  signed-in `handleAssessmentComplete` await storage (App.tsx:33, 72, 99).
  The navigation bar offers "Logout" as soon as the user is set
  (components/Navbar.tsx:56-62), so `handleLogout` can run in between.
  When the handler resumes, it does not look at who is signed in:
  - after a login the dashboard becomes the current page signed out,
    holding the fetched assessment of the user who just left
    (`App.LoginResumesSignedOut`; `initSession` resumes the same way at
    App.tsx:33-43). The page renders nothing, since the dashboard returns
    nothing without a user (components/Dashboard.tsx:14). The assessment
    left behind surfaces when the next user signs in and their
    `getLatestAssessment` finds nothing: App.tsx:73 then keeps what is
    stored, so that user's dashboard reports an assessment and the previous
    user's top match (App.tsx:122-129, `App.StaleAssessmentReachesNextUser`);
  - after a save the results page becomes the current page with no
    assessment (`App.ResultsSignedOutWithoutAssessment`). It renders
    nothing, since the logout emptied the recommendations and the results
    page returns nothing without one (components/Results.tsx:23);
  - "Retake" on the results page sets the page directly (App.tsx:146),
    without `handleNavigate`'s guard, so the assessment page can be shown
    signed out (`App.RestartSignedOut`).

  The class invariant therefore requires a user for analytics only, which
  is reached through the guard alone.

## Findings

| source | as written | input that shows it | evidently intended | confidence | as-written member | corrected member |
|---|---|---|---|---|---|---|
| App.tsx:72-80 | after the await, `handleLogin` restores the fetched assessment and makes the dashboard the current page, whoever is signed in by then | sign in, then sign out before `getLatestAssessment` returns: the dashboard becomes the current page signed out, holding the previous user's assessment and recommendations. The page renders nothing (components/Dashboard.tsx:14). When the next user signs in and their fetch finds nothing, their dashboard shows that assessment and its top match (`App.StaleAssessmentReachesNextUser`) | the resumption applies only while the user who signed in is still signed in | not executed | App.LoginResumesSignedOut | App.AppState.FinishLoginChecked |

The session handlers (`HandleLogin`, `RestoreSession`, `HandleAssessmentComplete`)
model the code as written. `App.LoginLogoutChecked` shows the corrected
resumption on the same input.

## Left out

- The request to the generative service, its prompt and response schema (services/gemini.ts:192-257) are a foreign library call. Its outcome is the `Reply` parameter.
- A `JSON.parse` that throws, and an entry whose `skillsHave` or `skillsMissing` is missing (so that `.filter` throws), both land in the `catch`. Both are modelled as a reply with `parsed == None`.
- `Math.random` in the fallback is the `jitter` parameter: three draws in 0..3.
- Timing is dropped: the `setTimeout` delays, the loading timer and progress messages of the form (components/Assessment.tsx:120-132, 178-180).
- `handleSubmit` (components/Assessment.tsx:169-187) is left out: it is the asynchronous call, the alert on failure and the hand-over to `onComplete`.
- What storage returns is the `saved` parameter. Each awaiting handler is split at its await, so another handler can run in between, but the returned value is not tied to the email that was asked for.
- `location.hash` is the `hashIsHome` parameter. `window.scrollTo` and the browser storage writes are left out.
- services/persistence.ts and backend/app.py (network, browser storage, database) are not part of this model.
- Analytics, Dashboard, Results, Home, Navbar and Auth rendering is left out. Results only re-sorts as App.tsx does, and Auth only compares passwords.
- JSX rendering, icons, and the role detail panel and card click are presentation only.
- `toLowerCase` is ASCII only and `trim` strips the ECMAScript whitespace and line terminators of the Basic Multilingual Plane. Unicode case mapping beyond ASCII is not modelled.
- Numbers are unbounded integers for percentages, ratings and scores, and a real for the CGPA. `parseFloat` and `parseInt` of the form inputs, including NaN results, are not modelled: the setters take parsed values.
- Strings from the key, the profile and the catalogue are plain character sequences. Lookups in a JavaScript object such as `interestMapping[f]`, which could hit prototype properties for keys like "constructor", are modelled as map lookups.
- Fallback.FallbackRanking: states the ranking facts about the first three ranks. That recommendation i is built from rank i is stated separately in `Fallback.FallbackEntry`.
- Fallback.RecommendationShape: the template texts of reasons, roadmap and links are transcribed but only their counts, the field reason, the description and the week numbers are stated.
- Roles.FilteredRolesSpec: the roles' optional detail fields in constants.ts are presentation only and are not part of `CareerRole`.
