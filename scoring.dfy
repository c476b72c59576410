/**
 * The scoring engine shared by the check-in, questionnaire and check-out handlers:
 * the four biometric sub-scores, the FAS and PSQI questionnaire sub-scores, the
 * aggregate total over the seven sub-scores, and the four-level classification.
 *
 * The handlers each carry their own copy of these routines; the copies are identical
 * apart from comments and type annotations, so they are modelled once here.
 */
module Scoring {
  import opened Builtins

  // ---------------------------------------------------------------------------
  // Sub-scores, total and classification
  // ---------------------------------------------------------------------------

  /** The seven named components, each meant to be 0 (no concern) .. 3 (critical). */
  datatype SubScores = SubScores(fas: int, psqi: int, pa: int, bp: int, hr: int, temp: int, face: int)
  {
    /** `Object.values(scores)`: the components in declaration order. */
    function Values(): seq<int>
    {
      [fas, psqi, pa, bp, hr, temp, face]
    }

    predicate InRange()
    {
      && 0 <= fas <= 3 && 0 <= psqi <= 3 && 0 <= pa <= 3
      && 0 <= bp <= 3 && 0 <= hr <= 3 && 0 <= temp <= 3 && 0 <= face <= 3
    }

    /** `Object.values(scores).some(score => score >= 3)`. */
    predicate AnyCritical()
    {
      exists i | 0 <= i < 7 :: Values()[i] >= 3
    }
  }

  /** `Object.values(scores).reduce((sum, score) => sum + score, 0)`. */
  function Total(s: SubScores): (t: int)
    ensures t == s.fas + s.psqi + s.pa + s.bp + s.hr + s.temp + s.face
  {
    var v := s.Values();
    assert v[..1][..0] == [];
    assert Sum(v[..1]) == s.fas;
    assert Sum(v[..2]) == s.fas + s.psqi by { assert v[..2][..1] == v[..1]; }
    assert Sum(v[..3]) == s.fas + s.psqi + s.pa by { assert v[..3][..2] == v[..2]; }
    assert Sum(v[..4]) == s.fas + s.psqi + s.pa + s.bp by { assert v[..4][..3] == v[..3]; }
    assert Sum(v[..5]) == s.fas + s.psqi + s.pa + s.bp + s.hr by { assert v[..5][..4] == v[..4]; }
    assert Sum(v[..6]) == s.fas + s.psqi + s.pa + s.bp + s.hr + s.temp by { assert v[..6][..5] == v[..5]; }
    Sum(s.Values())
  }

  /** Seven sub-scores in [0, 3] add up to a total in [0, 21]. */
  lemma TotalBounds(s: SubScores)
    requires s.InRange()
    ensures 0 <= Total(s) <= 21
  {
  }

  /** Some component reaches 3 exactly when one of the seven named fields does. */
  lemma AnyCriticalFields(s: SubScores)
    ensures s.AnyCritical() <==>
      (s.fas >= 3 || s.psqi >= 3 || s.pa >= 3 || s.bp >= 3 || s.hr >= 3 || s.temp >= 3 || s.face >= 3)
  {
    var v := s.Values();
    assert v[0] == s.fas && v[1] == s.psqi && v[2] == s.pa && v[3] == s.bp;
    assert v[4] == s.hr && v[5] == s.temp && v[6] == s.face;
  }

  datatype Classification = Fit | MildFatigue | ModerateFatigue | SevereFatigue
  {
    /** The text the handlers send and compare against. */
    function Label(): string
    {
      match this
      case Fit => "Fit"
      case MildFatigue => "Mild Fatigue"
      case ModerateFatigue => "Moderate Fatigue"
      case SevereFatigue => "Severe Fatigue"
    }

    function Rank(): int
    {
      match this
      case Fit => 0
      case MildFatigue => 1
      case ModerateFatigue => 2
      case SevereFatigue => 3
    }
  }

  /** `getClassification`: the four classes partition the integers at 5 | 6, 9 | 10 and 14 | 15. */
  function Classify(total: int): (c: Classification)
    ensures c == Fit <==> total <= 5
    ensures c == MildFatigue <==> 6 <= total <= 9
    ensures c == ModerateFatigue <==> 10 <= total <= 14
    ensures c == SevereFatigue <==> 15 <= total
  {
    if total <= 5 then Fit
    else if total <= 9 then MildFatigue
    else if total <= 14 then ModerateFatigue
    else SevereFatigue
  }

  /** A higher total never gives a milder class. */
  lemma ClassifyMonotone(a: int, b: int)
    requires a <= b
    ensures Classify(a).Rank() <= Classify(b).Rank()
  {
  }

  /** Distinct classes carry distinct labels, so comparing labels compares classes. */
  lemma LabelsDistinct(c: Classification, d: Classification)
    ensures c.Label() == d.Label() <==> c == d
  {
    if c != d {
      assert c.Label()[..1] != d.Label()[..1] || |c.Label()| != |d.Label()|;
    }
  }

  // ---------------------------------------------------------------------------
  // Questionnaire sub-scores
  // ---------------------------------------------------------------------------

  /** Three FAS answers, each in [1, 5]. */
  predicate ValidFasAnswers(answers: seq<int>)
  {
    |answers| == 3 && AllInRange(answers, 1, 5)
  }

  /** Four PSQI answers, each in [1, 4]. */
  predicate ValidPsqiAnswers(answers: seq<int>)
  {
    |answers| == 4 && AllInRange(answers, 1, 4)
  }

  /** `calculateFASScore`: the answer sum bucketed at 5, 8 and 11. */
  function FasScore(answers: seq<int>): (score: int)
    ensures 0 <= score <= 3
  {
    var total := Sum(answers);
    if total <= 5 then 0
    else if total <= 8 then 1
    else if total <= 11 then 2
    else 3
  }

  /** `calculatePSQIScore`: the answer sum bucketed at 6, 9 and 12. */
  function PsqiScore(answers: seq<int>): (score: int)
    ensures 0 <= score <= 3
  {
    var total := Sum(answers);
    if total <= 6 then 0
    else if total <= 9 then 1
    else if total <= 12 then 2
    else 3
  }

  /** Both questionnaire scores are monotone step functions of the answer sum. */
  lemma QuestionnaireScoresMonotone(a: seq<int>, b: seq<int>)
    requires Sum(a) <= Sum(b)
    ensures FasScore(a) <= FasScore(b)
    ensures PsqiScore(a) <= PsqiScore(b)
  {
  }

  /** For valid FAS answers the sum is 3..15 and the documented ranges 3-5, 6-8, 9-11, 12-15 map to 0..3. */
  lemma FasDocumentedRanges(answers: seq<int>)
    requires ValidFasAnswers(answers)
    ensures 3 <= Sum(answers) <= 15
    ensures FasScore(answers) == 0 <==> 3 <= Sum(answers) <= 5
    ensures FasScore(answers) == 1 <==> 6 <= Sum(answers) <= 8
    ensures FasScore(answers) == 2 <==> 9 <= Sum(answers) <= 11
    ensures FasScore(answers) == 3 <==> 12 <= Sum(answers) <= 15
  {
    SumBounds(answers, 1, 5);
  }

  /** For valid PSQI answers the sum is 4..16 and the documented ranges 4-6, 7-9, 10-12, 13-16 map to 0..3. */
  lemma PsqiDocumentedRanges(answers: seq<int>)
    requires ValidPsqiAnswers(answers)
    ensures 4 <= Sum(answers) <= 16
    ensures PsqiScore(answers) == 0 <==> 4 <= Sum(answers) <= 6
    ensures PsqiScore(answers) == 1 <==> 7 <= Sum(answers) <= 9
    ensures PsqiScore(answers) == 2 <==> 10 <= Sum(answers) <= 12
    ensures PsqiScore(answers) == 3 <==> 13 <= Sum(answers) <= 16
  {
    SumBounds(answers, 1, 4);
  }

  /** The sub-scores the questionnaire handler reports. */
  datatype QuestionnaireScores = QuestionnaireScores(fas: int, psqi: int, pa: int)

  // ---------------------------------------------------------------------------
  // Biometric sub-scores
  // ---------------------------------------------------------------------------

  /** A reading: blood pressure (mmHg), heart rate (bpm), temperature (degrees C) and a face label. */
  datatype Biometrics = Biometrics(sbp: real, dbp: real, bpm: real, temp: real, faceLabel: string)

  datatype BiometricScores = BiometricScores(bp: int, hr: int, temp: int, face: int)

  function Max(a: int, b: int): int
  {
    if a < b then b else a
  }

  function Indicator(b: bool): int
  {
    if b then 1 else 0
  }

  /**
   * The alert bands are nested (critical inside high concern inside monitor), so a
   * severity can be read as the number of bands a value falls in. These are the
   * reference definitions the first-match-wins chains are checked against.
   */
  function SystolicBands(sbp: real): int
  {
    Indicator(sbp >= 140.0 || sbp < 95.0) + Indicator(sbp >= 160.0 || sbp < 90.0) + Indicator(sbp >= 180.0 || sbp < 80.0)
  }

  function DiastolicBands(dbp: real): int
  {
    Indicator(dbp >= 90.0 || dbp < 65.0) + Indicator(dbp >= 100.0 || dbp < 60.0) + Indicator(dbp >= 110.0 || dbp < 50.0)
  }

  /** Blood-pressure severity: the worse of the systolic and the diastolic reading. */
  function BpSeverity(sbp: real, dbp: real): (score: int)
    ensures 0 <= score <= 3
    ensures score == 0 <==> 95.0 <= sbp < 140.0 && 65.0 <= dbp < 90.0
    ensures score == 3 <==> sbp >= 180.0 || sbp < 80.0 || dbp >= 110.0 || dbp < 50.0
  {
    Max(SystolicBands(sbp), DiastolicBands(dbp))
  }

  /** Heart-rate severity: how many of the bands >100|<60, >110|<50, >120|<40 the rate falls in. */
  function HrSeverity(bpm: real): (score: int)
    ensures 0 <= score <= 3
    ensures score == 0 <==> 60.0 <= bpm <= 100.0
    ensures score == 3 <==> bpm > 120.0 || bpm < 40.0
  {
    Indicator(bpm > 100.0 || bpm < 60.0) + Indicator(bpm > 110.0 || bpm < 50.0) + Indicator(bpm > 120.0 || bpm < 40.0)
  }

  /** Temperature severity: how many of the bands >37.5|<36.5, >38.0|<36.0, >38.5|<35.5 it falls in. */
  function TempSeverity(temp: real): (score: int)
    ensures 0 <= score <= 3
    ensures score == 0 <==> 36.5 <= temp <= 37.5
    ensures score == 3 <==> temp > 38.5 || temp < 35.5
  {
    Indicator(temp > 37.5 || temp < 36.5) + Indicator(temp > 38.0 || temp < 36.0) + Indicator(temp > 38.5 || temp < 35.5)
  }

  /** Away from the normal band, a heart rate further out never scores lower. */
  lemma HrMonotoneAwayFromNormal(a: real, b: real)
    ensures 60.0 <= a <= b ==> HrSeverity(a) <= HrSeverity(b)
    ensures a <= b <= 100.0 ==> HrSeverity(a) >= HrSeverity(b)
  {
  }

  /** Away from the normal band, a temperature further out never scores lower. */
  lemma TempMonotoneAwayFromNormal(a: real, b: real)
    ensures 36.5 <= a <= b ==> TempSeverity(a) <= TempSeverity(b)
    ensures a <= b <= 37.5 ==> TempSeverity(a) >= TempSeverity(b)
  {
  }

  /** The label, lower-cased, contains the keyword somewhere. */
  ghost predicate Mentions(faceLabel: string, keyword: string)
  {
    exists i :: OccursAt(ToLower(faceLabel), keyword, i)
  }

  /** Face severity: the highest level among the keywords the faceLabel mentions, ignoring case. */
  ghost function FaceSeverity(faceLabel: string): (score: int)
    ensures 0 <= score <= 3
    ensures score == 0 <==>
      !Mentions(faceLabel, "severe") && !Mentions(faceLabel, "exhausted") && !Mentions(faceLabel, "moderate")
      && !Mentions(faceLabel, "tired") && !Mentions(faceLabel, "mild") && !Mentions(faceLabel, "slight")
  {
    var level3 := if Mentions(faceLabel, "severe") || Mentions(faceLabel, "exhausted") then 3 else 0;
    var level2 := if Mentions(faceLabel, "moderate") || Mentions(faceLabel, "tired") then 2 else 0;
    var level1 := if Mentions(faceLabel, "mild") || Mentions(faceLabel, "slight") then 1 else 0;
    Max(level3, Max(level2, level1))
  }

  /** A critical keyword decides the face score whatever else the faceLabel says. */
  lemma CriticalFaceKeywordWins(faceLabel: string)
    requires Mentions(faceLabel, "severe") || Mentions(faceLabel, "exhausted")
    ensures FaceSeverity(faceLabel) == 3
  {
  }

  /** The face score does not depend on the case of the faceLabel's letters. */
  lemma FaceSeverityIgnoresCase(a: string, b: string)
    requires EqualIgnoringCase(a, b)
    ensures FaceSeverity(a) == FaceSeverity(b)
  {
    SameLowerCase(a, b);
  }

  /** Checking the keywords from the most severe level down finds the worst level mentioned. */
  lemma FaceFirstMatch(faceLabel: string)
    ensures var lower := ToLower(faceLabel);
      FaceSeverity(faceLabel) ==
        if Contains(lower, "severe") || Contains(lower, "exhausted") then 3
        else if Contains(lower, "moderate") || Contains(lower, "tired") then 2
        else if Contains(lower, "mild") || Contains(lower, "slight") then 1
        else 0
  {
  }

  /** The reference meaning of the four biometric sub-scores. */
  ghost function BiometricSeverity(b: Biometrics): BiometricScores
  {
    BiometricScores(BpSeverity(b.sbp, b.dbp), HrSeverity(b.bpm), TempSeverity(b.temp), FaceSeverity(b.faceLabel))
  }

  /** The blood-pressure block: `bpScore` starts at 0 and the first matching band sets it. */
  method ScoreBloodPressure(sbp: real, dbp: real) returns (bpScore: int)
    ensures bpScore == BpSeverity(sbp, dbp)
  {
    bpScore := 0;
    if sbp >= 180.0 || dbp >= 110.0 || sbp < 80.0 || dbp < 50.0 {
      bpScore := 3;
    } else if sbp >= 160.0 || dbp >= 100.0 || sbp < 90.0 || dbp < 60.0 {
      bpScore := 2;
    } else if sbp >= 140.0 || dbp >= 90.0 || sbp < 95.0 || dbp < 65.0 {
      bpScore := 1;
    }
  }

  /** The heart-rate block, checked from the critical band down. */
  method ScoreHeartRate(bpm: real) returns (hrScore: int)
    ensures hrScore == HrSeverity(bpm)
  {
    hrScore := 0;
    if bpm > 120.0 || bpm < 40.0 {
      hrScore := 3;
    } else if bpm > 110.0 || bpm < 50.0 {
      hrScore := 2;
    } else if bpm > 100.0 || bpm < 60.0 {
      hrScore := 1;
    }
  }

  /** The temperature block, checked from the critical band down. */
  method ScoreTemperature(temp: real) returns (tempScore: int)
    ensures tempScore == TempSeverity(temp)
  {
    tempScore := 0;
    if temp > 38.5 || temp < 35.5 {
      tempScore := 3;
    } else if temp > 38.0 || temp < 36.0 {
      tempScore := 2;
    } else if temp > 37.5 || temp < 36.5 {
      tempScore := 1;
    }
  }

  /** The face block: lower-case the label, then look for the keywords level by level. */
  method ScoreFace(rawLabel: string) returns (faceScore: int)
    ensures faceScore == FaceSeverity(rawLabel)
  {
    faceScore := 0;
    var faceLabel := ToLower(rawLabel);
    if Contains(faceLabel, "severe") || Contains(faceLabel, "exhausted") {
      faceScore := 3;
    } else if Contains(faceLabel, "moderate") || Contains(faceLabel, "tired") {
      faceScore := 2;
    } else if Contains(faceLabel, "mild") || Contains(faceLabel, "slight") {
      faceScore := 1;
    }
    FaceFirstMatch(rawLabel);
  }

  /**
   * `calculateBiometricScores`: the four blocks in turn, each reassigning its score
   * through an if-chain checked from the most severe condition down, first match winning.
   */
  method CalculateBiometricScores(biometrics: Biometrics) returns (scores: BiometricScores)
    ensures scores == BiometricSeverity(biometrics)
  {
    var bpScore := ScoreBloodPressure(biometrics.sbp, biometrics.dbp);
    var hrScore := ScoreHeartRate(biometrics.bpm);
    var tempScore := ScoreTemperature(biometrics.temp);
    var faceScore := ScoreFace(biometrics.faceLabel);
    scores := BiometricScores(bpScore, hrScore, tempScore, faceScore);
  }

  /** The worked examples of the biometric tables. */
  lemma BiometricExamples()
    ensures BpSeverity(185.0, 70.0) == 3 && BpSeverity(145.0, 70.0) == 1 && BpSeverity(120.0, 80.0) == 0
    ensures HrSeverity(125.0) == 3 && HrSeverity(105.0) == 1 && HrSeverity(72.0) == 0
    ensures TempSeverity(38.6) == 3 && TempSeverity(37.6) == 1 && TempSeverity(36.8) == 0
  {
  }

  /** The worked examples of the questionnaire tables. */
  lemma QuestionnaireExamples()
    ensures FasScore([1, 1, 1]) == 0 && FasScore([2, 2, 2]) == 1 && FasScore([4, 4, 4]) == 3
    ensures PsqiScore([1, 1, 1, 1]) == 0 && PsqiScore([3, 3, 3, 3]) == 2 && PsqiScore([4, 4, 4, 4]) == 3
  {
    forall a: int, b: int, c: int ensures Sum([a, b, c]) == a + b + c {
      assert [a, b, c][..2] == [a, b] && [a, b][..1] == [a] && [a][..0] == [];
      assert Sum([a]) == a;
      assert Sum([a, b]) == a + b;
    }
    forall a: int, b: int, c: int, d: int ensures Sum([a, b, c, d]) == a + b + c + d {
      assert [a, b, c, d][..3] == [a, b, c] && [a, b, c][..2] == [a, b];
      assert Sum([a, b, c]) == a + b + c;
    }
  }

  /** A critical keyword in any case gives 3: "Severe Fatigue" and "SEVERE". */
  lemma SevereFaceExamples()
    ensures FaceSeverity("Severe Fatigue") == 3
    ensures FaceSeverity("SEVERE") == 3
  {
    assert ToLower("Severe Fatigue")[0..6] == "severe";
    assert OccursAt(ToLower("Severe Fatigue"), "severe", 0);
    assert ToLower("SEVERE")[0..6] == "severe";
    assert OccursAt(ToLower("SEVERE"), "severe", 0);
  }

  /** "Mild Fatigue" mentions only a level-1 keyword. */
  lemma MildFaceExample()
    ensures FaceSeverity("Mild Fatigue") == 1
  {
    MildFatigueLower();
    assert OccursAt("mild fatigue", "mild", 0);
    MildFatigueLacksLevel3();
    MildFatigueLacksLevel2();
  }

  lemma MildFatigueLower()
    ensures ToLower("Mild Fatigue") == "mild fatigue"
  {
  }

  lemma MildFatigueLacksLevel3()
    ensures !Contains("mild fatigue", "severe") && !Contains("mild fatigue", "exhausted")
  {
    MildFatigueLacksSevere();
    MildFatigueLacksExhausted();
  }

  lemma MildFatigueLacksSevere()
    ensures !Contains("mild fatigue", "severe")
  {
    var s, p := "mild fatigue", "severe";
    assert forall i | 0 <= i < 7 :: s[i] != 's';
    Absent(s, p, [0, 0, 0, 0, 0, 0, 0]);
  }

  lemma MildFatigueLacksExhausted()
    ensures !Contains("mild fatigue", "exhausted")
  {
    var s, p := "mild fatigue", "exhausted";
    assert s[0] == 'm' && s[1] == 'i' && s[2] == 'l' && s[3] == 'd' && p[0] == 'e';
    Absent(s, p, [0, 0, 0, 0]);
  }

  lemma MildFatigueLacksLevel2()
    ensures !Contains("mild fatigue", "moderate") && !Contains("mild fatigue", "tired")
  {
    Absent("mild fatigue", "moderate", [1, 0, 0, 0, 0]);
    MildFatigueLacksTired();
  }

  lemma MildFatigueLacksTired()
    ensures !Contains("mild fatigue", "tired")
  {
    var s, p := "mild fatigue", "tired";
    assert s[7] == 't' && s[9] == 'g' && p[2] == 'r';
    assert forall i | 0 <= i < 7 :: s[i] != 't';
    Absent(s, p, [0, 0, 0, 0, 0, 0, 0, 2]);
  }

  /** "Neutral" mentions no keyword at all. */
  lemma NeutralFaceExample()
    ensures FaceSeverity("Neutral") == 0
  {
    NeutralLower();
    NeutralLacksLevels3And2();
    NeutralLacksLevel1();
  }

  lemma NeutralLower()
    ensures ToLower("Neutral") == "neutral"
  {
  }

  lemma NeutralLacksLevels3And2()
    ensures !Contains("neutral", "severe") && !Contains("neutral", "exhausted")
    ensures !Contains("neutral", "moderate") && !Contains("neutral", "tired")
  {
    Absent("neutral", "severe", [0, 0]);
    Absent("neutral", "exhausted", []);
    Absent("neutral", "moderate", []);
    Absent("neutral", "tired", [0, 0, 0]);
  }

  lemma NeutralLacksLevel1()
    ensures !Contains("neutral", "mild") && !Contains("neutral", "slight")
  {
    Absent("neutral", "mild", [0, 0, 0, 0]);
    Absent("neutral", "slight", [0, 0]);
  }
}
