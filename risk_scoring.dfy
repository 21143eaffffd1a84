/**
 * Risk scoring helpers of the alerts backend: keyword severity, the time
 * decay of an incident's weight, the aggregate risk score of the incidents
 * around a point and its bucketing into the risk categories A..D.
 *
 * Floating-point numbers are modelled as exact reals.  The great-circle
 * distance of an incident and its distance factor are given per incident,
 * and the age of an incident is given in hours instead of being read from
 * the clock.
 */
module RiskScoring {
  import opened Wrappers

  /** Risk category; A is the most dangerous, D is safe. */
  datatype Level = A | B | C | D

  /** Danger rank of a category: D = 0 up to A = 3. */
  function Rank(l: Level): (n: nat)
    ensures n <= 3
  {
    match l
    case D => 0
    case C => 1
    case B => 2
    case A => 3
  }

  function MinInt(x: int, y: int): int { if x <= y then x else y }
  function MaxInt(x: int, y: int): int { if x >= y then x else y }
  function MaxReal(x: real, y: real): real { if x >= y then x else y }
  function MinReal(x: real, y: real): real { if x <= y then x else y }

  // ---------------------------------------------------------------------
  // Keyword severity (determine_severity_from_data)
  // ---------------------------------------------------------------------

  datatype KeywordScore = KeywordScore(word: string, score: int)

  /** The keyword table, in the order the dictionary lists it. */
  const Keywords: seq<KeywordScore> := [
    KeywordScore("rape", 5),
    KeywordScore("assault", 4),
    KeywordScore("robbery", 4),
    KeywordScore("burglary", 3),
    KeywordScore("theft", 2),
    KeywordScore("suspicious", 1),
    KeywordScore("disturbance", 1)
  ]

  lemma KeywordScoresInRange()
    ensures forall i :: 0 <= i < |Keywords| ==> 1 <= Keywords[i].score <= 5
  {
  }

  /** Lower-casing of one character; only ASCII letters are mapped. */
  function LowerChar(c: char): (d: char)
    ensures 'A' <= c <= 'Z' ==> d as int == c as int + 32 && 'a' <= d <= 'z'
    ensures !('A' <= c <= 'Z') ==> d == c
  {
    if 'A' <= c <= 'Z' then (c as int + 32) as char else c
  }

  function Lower(s: string): (t: string)
    ensures |t| == |s|
    ensures forall i :: 0 <= i < |s| ==> t[i] == LowerChar(s[i])
  {
    seq(|s|, i requires 0 <= i < |s| => LowerChar(s[i]))
  }

  /**
   * After lower-casing no ASCII capital is left, lower-casing again changes
   * nothing, and only capitals were changed.
   */
  lemma LowerIsLowerCase(s: string)
    ensures forall i :: 0 <= i < |s| ==> !('A' <= Lower(s)[i] <= 'Z')
    ensures Lower(Lower(s)) == Lower(s)
    ensures forall i :: 0 <= i < |s| && Lower(s)[i] != s[i] ==> 'A' <= s[i] <= 'Z'
  {
    var t := Lower(s);
    assert forall i :: 0 <= i < |s| ==> LowerChar(t[i]) == t[i];
    assert Lower(t) == t;
  }

  /** `word` starts at position `i` of `text`. */
  predicate OccursAt(word: string, text: string, i: int)
    requires 0 <= i <= |text| - |word|
  {
    text[i..i + |word|] == word
  }

  /** Python's `word in text`: `word` occurs contiguously in `text`. */
  predicate Occurs(word: string, text: string) {
    exists i | 0 <= i <= |text| - |word| :: OccursAt(word, text, i)
  }

  /** A keyword of the table occurs in the lower-cased text. */
  predicate Matched(j: int, text: string)
    requires 0 <= j < |Keywords|
  {
    Occurs(Keywords[j].word, Lower(text))
  }

  /**
   * Reference definition: the largest score among the keywords of `kws`
   * that occur in `lowered`, or None when none occurs.
   */
  function MaxMatch(lowered: string, kws: seq<KeywordScore>): Option<int>
    decreases |kws|
  {
    if kws == [] then None
    else
      var rest := MaxMatch(lowered, kws[1..]);
      if !Occurs(kws[0].word, lowered) then rest
      else if rest.None? then Some(kws[0].score)
      else Some(MaxInt(kws[0].score, rest.value))
  }

  lemma {:induction false} MaxMatchIsMaximum(lowered: string, kws: seq<KeywordScore>)
    ensures MaxMatch(lowered, kws).None? <==>
              (forall j :: 0 <= j < |kws| ==> !Occurs(kws[j].word, lowered))
    ensures MaxMatch(lowered, kws).Some? ==>
              (exists j :: 0 <= j < |kws| && Occurs(kws[j].word, lowered)
                           && kws[j].score == MaxMatch(lowered, kws).value)
    ensures MaxMatch(lowered, kws).Some? ==>
              (forall j :: 0 <= j < |kws| && Occurs(kws[j].word, lowered) ==>
                           kws[j].score <= MaxMatch(lowered, kws).value)
    decreases |kws|
  {
    if kws != [] {
      MaxMatchIsMaximum(lowered, kws[1..]);
      var rest := MaxMatch(lowered, kws[1..]);
      forall j | 1 <= j < |kws| ensures kws[j] == kws[1..][j - 1] { }
      if rest.Some? {
        var j :| 0 <= j < |kws[1..]| && Occurs(kws[1..][j].word, lowered)
                 && kws[1..][j].score == rest.value;
        assert Occurs(kws[j + 1].word, lowered) && kws[j + 1].score == rest.value;
      }
    }
  }

  /** The severity `determine_severity_from_data` computes for a text. */
  function SeverityOf(text: string): int {
    MaxMatch(Lower(text), Keywords).GetOr(1)
  }

  /** SeverityOf is the largest score of an occurring keyword, 1 when none occurs, and in 1..5. */
  lemma SeverityOfIsMaximum(text: string)
    ensures 1 <= SeverityOf(text) <= 5
    ensures (forall j :: 0 <= j < |Keywords| ==> !Matched(j, text)) ==> SeverityOf(text) == 1
    ensures forall j :: 0 <= j < |Keywords| && Matched(j, text) ==> Keywords[j].score <= SeverityOf(text)
    ensures (exists j :: 0 <= j < |Keywords| && Matched(j, text)) ==>
              (exists j :: 0 <= j < |Keywords| && Matched(j, text) && Keywords[j].score == SeverityOf(text))
  {
    MaxMatchIsMaximum(Lower(text), Keywords);
    KeywordScoresInRange();
    assert forall j :: 0 <= j < |Keywords| ==> (Matched(j, text) <==> Occurs(Keywords[j].word, Lower(text)));
  }

  /**
   * determine_severity_from_data: scan the keyword table in order and keep
   * the largest score of a keyword found in the lower-cased text.
   */
  method DetermineSeverity(text: string) returns (severity: int)
    ensures 1 <= severity <= 5
    ensures (forall j :: 0 <= j < |Keywords| ==> !Matched(j, text)) ==> severity == 1
    ensures forall j :: 0 <= j < |Keywords| && Matched(j, text) ==> Keywords[j].score <= severity
    ensures (exists j :: 0 <= j < |Keywords| && Matched(j, text)) ==>
              (exists j :: 0 <= j < |Keywords| && Matched(j, text) && Keywords[j].score == severity)
    ensures severity == SeverityOf(text)
  {
    var lowered := Lower(text);
    var best: Option<int> := None;
    var i := 0;
    while i < |Keywords|
      invariant 0 <= i <= |Keywords|
      invariant best.None? <==> (forall j :: 0 <= j < i ==> !Matched(j, text))
      invariant best.Some? ==> 1 <= best.value <= 5
      invariant best.Some? ==> (exists j :: 0 <= j < i && Matched(j, text) && Keywords[j].score == best.value)
      invariant best.Some? ==> (forall j :: 0 <= j < i && Matched(j, text) ==> Keywords[j].score <= best.value)
    {
      var k := Keywords[i];
      assert Matched(i, text) == Occurs(k.word, lowered);
      if Occurs(k.word, lowered) {
        if best.None? || k.score > best.value {
          best := Some(k.score);
        }
      }
      i := i + 1;
    }
    severity := best.GetOr(1);
    SeverityOfIsMaximum(text);
    if best.Some? {
      var j1 :| 0 <= j1 < |Keywords| && Matched(j1, text) && Keywords[j1].score == severity;
      var j2 :| 0 <= j2 < |Keywords| && Matched(j2, text) && Keywords[j2].score == SeverityOf(text);
    }
  }

  // ---------------------------------------------------------------------
  // Time decay (time_decay, over the age in hours)
  // ---------------------------------------------------------------------

  /** Weight of an incident that is `ageHours` old. */
  function TimeDecay(ageHours: real): (w: real)
    ensures 0.1 <= w <= 1.0
    ensures ageHours <= 24.0 ==> w == 1.0
    ensures ageHours >= 720.0 ==> w == 0.1
  {
    if ageHours <= 24.0 then 1.0
    else if ageHours >= 720.0 then 0.1
    else 1.0 - (0.9 * (ageHours - 24.0) / (720.0 - 24.0))
  }

  /** An older incident never weighs more than a newer one. */
  lemma TimeDecayNonIncreasing(younger: real, older: real)
    requires younger <= older
    ensures TimeDecay(older) <= TimeDecay(younger)
  {
  }

  function AbsReal(x: real): real { if x >= 0.0 then x else -x }

  /**
   * TimeDecay is Lipschitz with constant 0.9 / 696, so it is continuous
   * everywhere, in particular at 24 h and at 720 h.
   */
  lemma TimeDecayLipschitz(x: real, y: real)
    ensures AbsReal(TimeDecay(x) - TimeDecay(y)) <= 0.9 / 696.0 * AbsReal(x - y)
  {
  }

  // ---------------------------------------------------------------------
  // Aggregate risk score (compute_risk_score)
  // ---------------------------------------------------------------------

  /**
   * An incident as seen from the query point: its great-circle distance and
   * distance factor are given, as is its age in hours.  `severity` 0 is the
   * falsy stored severity, for which the description's keywords decide.
   */
  datatype Incident = Incident(
    distanceKm: real,
    distanceFactor: real,
    ageHours: real,
    severity: int,
    description: string)

  predicate Contributes(inc: Incident, radiusKm: real) {
    inc.distanceKm <= radiusKm
  }

  /** The stored severity when it is truthy, otherwise the keyword severity, which lies in 1..5. */
  function EffectiveSeverity(inc: Incident): (s: int)
    ensures inc.severity != 0 ==> s == inc.severity
    ensures inc.severity == 0 ==> 1 <= s <= 5 && s == SeverityOf(inc.description)
    ensures 0 <= inc.severity <= 5 ==> 1 <= s <= 5
  {
    SeverityOfIsMaximum(inc.description);
    if inc.severity != 0 then inc.severity else SeverityOf(inc.description)
  }

  /** Score of one contributing incident: distance x time x severity / 5. */
  function IncidentScore(inc: Incident): real {
    ScoreWithSeverity(inc, EffectiveSeverity(inc))
  }

  /** distance factor x time factor x severity factor, for a given severity. */
  function ScoreWithSeverity(inc: Incident, severity: int): real {
    inc.distanceFactor * TimeDecay(inc.ageHours) * (severity as real / 5.0)
  }

  /**
   * With a distance factor in [0, 1] and a stored severity in 0..5, an
   * incident scores in [0, 1], and at least a tenth of a fifth of its factor.
   */
  lemma IncidentScoreInUnit(inc: Incident)
    requires 0.0 <= inc.distanceFactor <= 1.0
    requires 0 <= inc.severity <= 5
    ensures 0.0 <= IncidentScore(inc) <= 1.0
    ensures inc.distanceFactor * 0.02 <= IncidentScore(inc)
  {
    var e := EffectiveSeverity(inc);
    var f, t, v := inc.distanceFactor, TimeDecay(inc.ageHours), e as real / 5.0;
    SeverityFactorInRange(e);
    ProductOfFactors(f, t, v);
    assert IncidentScore(inc) == f * t * v;
  }

  /** A severity in 1..5 gives a severity factor in [0.2, 1]. */
  lemma SeverityFactorInRange(severity: int)
    requires 1 <= severity <= 5
    ensures 0.2 <= severity as real / 5.0 <= 1.0
  {
  }

  /** A product of a factor in [0, 1], a weight in [0.1, 1] and a weight in [0.2, 1]. */
  lemma ProductOfFactors(f: real, t: real, v: real)
    requires 0.0 <= f <= 1.0 && 0.1 <= t <= 1.0 && 0.2 <= v <= 1.0
    ensures 0.0 <= f * t * v <= 1.0
    ensures f * 0.02 <= f * t * v
  {
    assert 0.0 <= f * t <= f by {
      assert f * t <= f * 1.0;
    }
    assert f * 0.1 <= f * t;
    assert (f * t) * v <= (f * t) * 1.0;
    assert (f * t) * 0.2 <= (f * t) * v;
    assert f * 0.02 == (f * 0.1) * 0.2 <= (f * t) * 0.2;
  }

  /** Scores of the incidents within the radius, in incident order. */
  function ContributingScores(incs: seq<Incident>, radiusKm: real): seq<real>
    decreases |incs|
  {
    if incs == [] then []
    else
      var init := ContributingScores(incs[..|incs| - 1], radiusKm);
      var last := incs[|incs| - 1];
      if Contributes(last, radiusKm) then init + [IncidentScore(last)] else init
  }

  /** Running maximum that starts at 0. */
  function MaxFromZero(xs: seq<real>): real
    decreases |xs|
  {
    if xs == [] then 0.0 else MaxReal(MaxFromZero(xs[..|xs| - 1]), xs[|xs| - 1])
  }

  function Sum(xs: seq<real>): real
    decreases |xs|
  {
    if xs == [] then 0.0 else Sum(xs[..|xs| - 1]) + xs[|xs| - 1]
  }

  /** 70 % of the highest incident score and 30 % of a third of the total, scaled to 10. */
  function Blend(maxScore: real, total: real): (r: real)
    ensures r == 7.0 * maxScore + total
  {
    (0.7 * maxScore + 0.3 * (total / 3.0)) * 10.0
  }

  function Clamp(x: real): (r: real)
    ensures 0.0 <= r <= 10.0
    ensures 0.0 <= x <= 10.0 ==> r == x
    ensures x < 0.0 ==> r == 0.0
    ensures x > 10.0 ==> r == 10.0
  {
    MinReal(10.0, MaxReal(0.0, x))
  }

  /** The score compute_risk_score returns. */
  function RiskScore(incs: seq<Incident>, radiusKm: real): real {
    var scores := ContributingScores(incs, radiusKm);
    Clamp(Blend(MaxFromZero(scores), Sum(scores)))
  }

  lemma {:induction false} MaxFromZeroIsMaximum(xs: seq<real>)
    ensures 0.0 <= MaxFromZero(xs)
    ensures forall k :: 0 <= k < |xs| ==> xs[k] <= MaxFromZero(xs)
    ensures MaxFromZero(xs) == 0.0 || (exists k :: 0 <= k < |xs| && xs[k] == MaxFromZero(xs))
    decreases |xs|
  {
    if xs != [] {
      var init := xs[..|xs| - 1];
      MaxFromZeroIsMaximum(init);
      assert forall k :: 0 <= k < |init| ==> xs[k] == init[k];
      if MaxFromZero(xs) != 0.0 && MaxFromZero(xs) != xs[|xs| - 1] {
        var k :| 0 <= k < |init| && init[k] == MaxFromZero(init);
        assert xs[k] == MaxFromZero(xs);
      }
    }
  }

  /** Scores are taken exactly from the incidents within the radius, in order. */
  lemma {:induction false} ContributingScoresAppend(xs: seq<Incident>, ys: seq<Incident>, radiusKm: real)
    ensures ContributingScores(xs + ys, radiusKm) ==
            ContributingScores(xs, radiusKm) + ContributingScores(ys, radiusKm)
    decreases |ys|
  {
    if ys == [] {
      assert xs + ys == xs;
    } else {
      var ys' := ys[..|ys| - 1];
      ContributingScoresAppend(xs, ys', radiusKm);
      assert (xs + ys)[..|xs + ys| - 1] == xs + ys';
      assert (xs + ys)[|xs + ys| - 1] == ys[|ys| - 1];
    }
  }

  /** An incident beyond the radius contributes nothing, wherever it sits in the list. */
  lemma FarIncidentIgnored(xs: seq<Incident>, inc: Incident, ys: seq<Incident>, radiusKm: real)
    requires !Contributes(inc, radiusKm)
    ensures RiskScore(xs + [inc] + ys, radiusKm) == RiskScore(xs + ys, radiusKm)
  {
    ContributingScoresAppend(xs, [inc], radiusKm);
    ContributingScoresAppend(xs + [inc], ys, radiusKm);
    ContributingScoresAppend(xs, ys, radiusKm);
    assert ContributingScores([inc], radiusKm) == [] by {
      assert [inc][..0] == [];
    }
  }

  /** With no incident within the radius the score is 0. */
  lemma {:induction false} NoContributorsScoresZero(incs: seq<Incident>, radiusKm: real)
    requires forall k :: 0 <= k < |incs| ==> !Contributes(incs[k], radiusKm)
    ensures ContributingScores(incs, radiusKm) == []
    ensures RiskScore(incs, radiusKm) == 0.0
    decreases |incs|
  {
    if incs != [] {
      NoContributorsScoresZero(incs[..|incs| - 1], radiusKm);
    }
  }

  /** A lone incident scored s in [0, 1] within the radius gives the risk score 8 s. */
  lemma SingleIncidentScore(inc: Incident, radiusKm: real)
    requires Contributes(inc, radiusKm)
    requires 0.0 <= IncidentScore(inc) <= 1.0
    ensures RiskScore([inc], radiusKm) == 8.0 * IncidentScore(inc)
  {
    assert [inc][..0] == [];
    var s := IncidentScore(inc);
    assert ContributingScores([inc], radiusKm) == [s];
    assert [s][..0] == [];
    assert MaxFromZero([s]) == s;
    assert Sum([s]) == s;
  }

  /** The score the loop computes from the severity it settled on is the incident's score. */
  lemma IncidentScoreOfSeverity(inc: Incident, severity: int)
    requires inc.severity != 0 ==> severity == inc.severity
    requires inc.severity == 0 ==> severity == SeverityOf(inc.description)
    ensures ScoreWithSeverity(inc, severity) == IncidentScore(inc)
  {
    assert severity == EffectiveSeverity(inc);
  }

  /** One more incident extends the contributing scores by its own score, if it is within the radius. */
  lemma ContributingScoresStep(incs: seq<Incident>, i: nat, radiusKm: real)
    requires i < |incs|
    ensures ContributingScores(incs[..i + 1], radiusKm) ==
            ContributingScores(incs[..i], radiusKm) +
            (if Contributes(incs[i], radiusKm) then [IncidentScore(incs[i])] else [])
  {
    assert incs[..i + 1][..i] == incs[..i];
  }

  lemma MaxAndSumStep(xs: seq<real>, x: real)
    ensures MaxFromZero(xs + [x]) == MaxReal(MaxFromZero(xs), x)
    ensures Sum(xs + [x]) == Sum(xs) + x
  {
    assert (xs + [x])[..|xs|] == xs;
  }

  /**
   * The body of compute_risk_score's loop for an incident within the
   * radius: the stored severity, or the keyword severity when it is 0,
   * combined with the distance and time factors.
   */
  method ScoreIncident(incident: Incident) returns (incidentScore: real)
    ensures incidentScore == IncidentScore(incident)
  {
    var severity := incident.severity;
    if severity == 0 {
      severity := DetermineSeverity(incident.description);
    }
    incidentScore := ScoreWithSeverity(incident, severity);
    IncidentScoreOfSeverity(incident, severity);
  }

  /**
   * compute_risk_score: one pass over the incidents keeping the highest
   * incident score (starting at 0) and the running total of the incidents
   * within `radiusKm`, then blending and clamping to [0, 10].
   */
  method ComputeRiskScore(incidents: seq<Incident>, radiusKm: real) returns (score: real)
    ensures score == RiskScore(incidents, radiusKm)
    ensures 0.0 <= score <= 10.0
    ensures (forall k :: 0 <= k < |incidents| ==> !Contributes(incidents[k], radiusKm)) ==> score == 0.0
  {
    var totalScore := 0.0;
    var maxIncidentScore := 0.0;
    var i := 0;
    while i < |incidents|
      invariant 0 <= i <= |incidents|
      invariant maxIncidentScore == MaxFromZero(ContributingScores(incidents[..i], radiusKm))
      invariant totalScore == Sum(ContributingScores(incidents[..i], radiusKm))
    {
      var incident := incidents[i];
      ContributingScoresStep(incidents, i, radiusKm);
      if incident.distanceKm <= radiusKm {
        var incidentScore := ScoreIncident(incident);
        MaxAndSumStep(ContributingScores(incidents[..i], radiusKm), incidentScore);
        maxIncidentScore := MaxReal(maxIncidentScore, incidentScore);
        totalScore := totalScore + incidentScore;
      } else {
        var scores := ContributingScores(incidents[..i], radiusKm);
        assert scores + [] == scores;
      }
      i := i + 1;
    }
    assert incidents[..i] == incidents;
    score := MinReal(10.0, MaxReal(0.0, (0.7 * maxIncidentScore + 0.3 * (totalScore / 3.0)) * 10.0));
    if forall k :: 0 <= k < |incidents| ==> !Contributes(incidents[k], radiusKm) {
      NoContributorsScoresZero(incidents, radiusKm);
    }
  }

  // ---------------------------------------------------------------------
  // Risk category (ai_predict_risk)
  // ---------------------------------------------------------------------

  /** features.get("risk_score", 0) */
  function RiskScoreFeature(features: map<string, real>): real {
    if "risk_score" in features then features["risk_score"] else 0.0
  }

  /**
   * ai_predict_risk: D below 2.5, C below 5, B below 7.5, A otherwise; the
   * rank is the number of whole 2.5-wide bands below the score, at most 3.
   */
  function AiPredictRisk(features: map<string, real>): (c: Level)
    ensures Rank(c) == MinInt(3, MaxInt(0, (RiskScoreFeature(features) / 2.5).Floor))
    ensures "risk_score" !in features ==> c == D
  {
    var riskScore := RiskScoreFeature(features);
    if riskScore < 2.5 then D
    else if riskScore < 5.0 then C
    else if riskScore < 7.5 then B
    else A
  }

  /** A higher score never yields a less dangerous category. */
  lemma AiPredictRiskMonotone(f1: map<string, real>, f2: map<string, real>)
    requires RiskScoreFeature(f1) <= RiskScoreFeature(f2)
    ensures Rank(AiPredictRisk(f1)) <= Rank(AiPredictRisk(f2))
  {
  }
}
