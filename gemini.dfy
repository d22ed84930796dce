/** `getCareerRecommendations` of services/gemini.ts: demo mode when no API
    key is configured, otherwise one request to the generative service whose
    parsed reply is reconciled against the profile, with the rule-based
    engine as the answer to every failure. The service itself is not
    modelled: its outcome is a parameter. */
module Gemini {
  import opened Text
  import opened Types
  import opened Catalog
  import opened Fallback
  import opened Reconciler

  /** What the request to the generative service produced: it failed
      (network, quota, key rejected), or it answered with a text that may or
      may not parse as a list of recommendations. A reply that does not
      parse, or whose entries lack the skill lists the reconciliation reads,
      is `parsed == None`. */
  datatype Reply = Failed | Responded(text: string, parsed: Option<seq<AIRecommendation>>)

  /** `!apiKey || apiKey.trim() === ""`. */
  predicate KeyMissing(apiKey: Option<string>)
  {
    apiKey.None? || Trim(apiKey.value) == ""
  }

  /** The key counts as missing exactly when it is unset or whitespace only. */
  lemma KeyMissingIff(apiKey: Option<string>)
    ensures KeyMissing(apiKey) <==>
      apiKey.None? || forall i :: 0 <= i < |apiKey.value| ==> IsWhitespace(apiKey.value[i])
  {
    if apiKey.Some? {
      TrimEmptyIff(apiKey.value);
    }
  }

  /** The reply is usable: a non-empty text that parsed. */
  predicate Usable(reply: Reply)
  {
    reply.Responded? && reply.text != "" && reply.parsed.Some?
  }

  /** `getCareerRecommendations(data)` for a given key, service outcome and
      random draws of the fallback engine. */
  function CareerRecommendations(data: AssessmentData, apiKey: Option<string>, reply: Reply, jitter: seq<int>)
    : (r: seq<AIRecommendation>)
    requires ValidJitter(jitter)
  {
    if KeyMissing(apiKey) then FallbackSpec(data, jitter)
    else if !Usable(reply) then FallbackSpec(data, jitter)
    else Reconcile(data, reply.parsed.value)
  }

  /** `getCareerRecommendations`, composed of the two engines. */
  method GetCareerRecommendations(data: AssessmentData, apiKey: Option<string>, reply: Reply, jitter: seq<int>)
    returns (recs: seq<AIRecommendation>)
    requires ValidJitter(jitter)
    ensures recs == CareerRecommendations(data, apiKey, reply, jitter)
  {
    if KeyMissing(apiKey) {
      recs := GetFallbackRecommendations(data, jitter);
      return;
    }
    if reply.Failed? || reply.text == "" || reply.parsed.None? {
      recs := GetFallbackRecommendations(data, jitter);
      return;
    }
    recs := ValidateAndFixSkills(data, reply.parsed.value);
  }

  /** In demo mode the service is never consulted: any two outcomes give
      the same answer. */
  lemma DemoIgnoresService(data: AssessmentData, apiKey: Option<string>, a: Reply, b: Reply, jitter: seq<int>)
    requires ValidJitter(jitter) && KeyMissing(apiKey)
    ensures CareerRecommendations(data, apiKey, a, jitter) == CareerRecommendations(data, apiKey, b, jitter)
  {
  }

  /** A failed request, an empty text and an unparsable text all give the
      demo-mode answer. */
  lemma FailureIsDemo(data: AssessmentData, key: string, reply: Reply, jitter: seq<int>)
    requires ValidJitter(jitter) && !Usable(reply)
    ensures CareerRecommendations(data, Some(key), reply, jitter) == CareerRecommendations(data, None, reply, jitter)
    ensures |CareerRecommendations(data, Some(key), reply, jitter)| == 3
  {
  }

  /** A usable reply keeps its length and its roles; each entry's skill
      lists are split by the profile's strengths and the missing list holds
      at most six names. */
  lemma ServiceAnswer(data: AssessmentData, key: string, reply: Reply, jitter: seq<int>, i: int)
    requires ValidJitter(jitter) && !KeyMissing(Some(key)) && Usable(reply)
    requires 0 <= i < |reply.parsed.value|
    ensures var raw := reply.parsed.value;
            var r := CareerRecommendations(data, Some(key), reply, jitter);
            && |r| == |raw|
            && r[i].roleName == raw[i].roleName && r[i].matchPercentage == raw[i].matchPercentage
            && (forall e :: e in r[i].skillsHave ==> Lower(e) in Strengths(data.skills))
            && (forall e :: e in r[i].skillsMissing ==> Lower(e) !in Strengths(data.skills))
            && |r[i].skillsMissing| <= 6
  {
    ReconcilePartition(data, reply.parsed.value, i);
  }

  /** The demo-mode answer is returned without reconciliation, and
      reconciling it would change it: for a profile with no skills, the
      catalogue keyword "Python" among the Data Scientist gaps would become
      "python". */
  lemma FallbackNotReconciled(data: AssessmentData, jitter: seq<int>)
    requires ValidJitter(jitter)
    requires data.skills == [] && data.interests == []
    ensures Reconcile(data, FallbackSpec(data, jitter)) != FallbackSpec(data, jitter)
  {
    var recs := FallbackSpec(data, jitter);
    EmptyProfileEntry(data, jitter, 0);
    assert recs[0].skillsMissing[0] == "Python";
    assert NameMap(data.skills) == map[];
    assert Lower("Python")[0] == 'p';
    if "Python" in Reconcile(data, recs)[0].skillsMissing {
      ReconcileCasing(data, recs, 0, "Python");
    }
    assert "Python" !in Reconcile(data, recs)[0].skillsMissing;
  }
}
