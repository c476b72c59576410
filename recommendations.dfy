/**
 * The two recommendation generators.
 *
 * Each generator pushes messages onto a list block by block. Both are specified here by
 * a rule table: an ordered list of (trigger, message) rules, of which the generator
 * must emit exactly the messages whose trigger fires, in table order.
 */
module Recommendations {
  import opened Builtins
  import opened Scoring

  datatype Rule<T> = Rule(when: T, message: string)

  /** The messages of the rules that fire, in table order. */
  function Select<T>(rules: seq<Rule<T>>, fires: T -> bool): (r: seq<string>)
    ensures |r| <= |rules|
  {
    if |rules| == 0 then []
    else (if fires(rules[0].when) then [rules[0].message] else []) + Select(rules[1..], fires)
  }

  function Messages<T>(rules: seq<Rule<T>>): (r: seq<string>)
    ensures |r| == |rules|
    ensures forall i | 0 <= i < |rules| :: r[i] == rules[i].message
  {
    if |rules| == 0 then [] else [rules[0].message] + Messages(rules[1..])
  }

  /** A run of rules sharing one trigger. */
  function Group<T>(when: T, messages: seq<string>): (r: seq<Rule<T>>)
    ensures |r| == |messages|
    ensures forall i | 0 <= i < |r| :: r[i] == Rule(when, messages[i])
  {
    seq(|messages|, i requires 0 <= i < |messages| => Rule(when, messages[i]))
  }

  /** A group contributes all of its messages when its trigger fires, and none otherwise. */
  lemma {:induction false} SelectGroup<T>(when: T, messages: seq<string>, fires: T -> bool)
    ensures Select(Group(when, messages), fires) == if fires(when) then messages else []
  {
    if |messages| > 0 {
      var g := Group(when, messages);
      assert g[1..] == Group(when, messages[1..]);
      SelectGroup(when, messages[1..], fires);
      assert [messages[0]] + messages[1..] == messages;
    }
  }

  /** Selecting from a concatenated table selects from each part. */
  lemma {:induction false} SelectAppend<T>(a: seq<Rule<T>>, b: seq<Rule<T>>, fires: T -> bool)
    ensures Select(a + b, fires) == Select(a, fires) + Select(b, fires)
  {
    if |a| == 0 {
      assert a + b == b;
    } else {
      assert (a + b)[0] == a[0];
      assert (a + b)[1..] == a[1..] + b;
      SelectAppend(a[1..], b, fires);
    }
  }

  /** What is selected keeps the table's order. */
  lemma {:induction false} SelectInTableOrder<T>(rules: seq<Rule<T>>, fires: T -> bool)
    ensures IsSubsequence(Select(rules, fires), Messages(rules))
  {
    if |rules| > 0 {
      SelectInTableOrder(rules[1..], fires);
      var rest := Select(rules[1..], fires);
      var all := Messages(rules);
      assert all[1..] == Messages(rules[1..]);
      if fires(rules[0].when) {
        assert Select(rules, fires) == [rules[0].message] + rest;
        assert ([rules[0].message] + rest)[1..] == rest;
      } else {
        assert Select(rules, fires) == rest;
      }
    }
  }

  /** A message is selected exactly when some rule carrying it fires. */
  lemma {:induction false} SelectMembership<T>(rules: seq<Rule<T>>, fires: T -> bool, m: string)
    ensures m in Select(rules, fires) <==> exists i | 0 <= i < |rules| :: rules[i].message == m && fires(rules[i].when)
  {
    if |rules| > 0 {
      SelectMembership(rules[1..], fires, m);
      if exists i | 0 <= i < |rules[1..]| :: rules[1..][i].message == m && fires(rules[1..][i].when) {
        var i :| 0 <= i < |rules[1..]| && rules[1..][i].message == m && fires(rules[1..][i].when);
        assert rules[i + 1] == rules[1..][i];
      }
      if exists i | 0 <= i < |rules| :: rules[i].message == m && fires(rules[i].when) {
        var i :| 0 <= i < |rules| && rules[i].message == m && fires(rules[i].when);
        if i > 0 {
          assert rules[1..][i - 1] == rules[i];
        }
      }
    }
  }

  // ---------------------------------------------------------------------------
  // The check-out generator
  // ---------------------------------------------------------------------------

  const SevereReferral := "Segera lakukan skrining medis atau rujukan"
  const SevereRotation := "Pertimbangkan rotasi atau cuti sebelum shift berikutnya"
  const ModerateEvaluate := "Evaluasi shift dan beban kerja dengan supervisor"
  const ModerateRest := "Istirahat yang cukup sebelum shift berikutnya"
  const MildRest := "Pastikan istirahat yang cukup"
  const MildMonitor := "Monitor kondisi lebih ketat"
  const SharpRiseNotice := "Kelelahan meningkat signifikan selama shift"
  const SharpRiseAdjust := "Pertimbangkan penyesuaian jadwal atau beban kerja"
  const RiseNotice := "Kelelahan meningkat selama shift"
  const RiseRest := "Disarankan istirahat yang cukup"
  const ImprovementNotice := "Kondisi membaik selama shift"
  const ImprovementKeep := "Pertahankan pola kerja yang baik"
  const BpCaution := "Tekanan darah perlu perhatian - konsultasi medis jika berlanjut"
  const HrCaution := "Denyut nadi abnormal - istirahat dan hidrasi yang cukup"
  const TempCaution := "Suhu tubuh abnormal - monitor kesehatan dan istirahat"
  const FaceCaution := "Tanda kelelahan pada ekspresi wajah - istirahat segera"
  const StableNotice := "Kondisi stabil, selamat beristirahat"
  const StableKeep := "Pertahankan pola hidup sehat"

  datatype CheckOutTrigger =
    | SevereTotal | ModerateTotal | MildTotal
    | SharpRise | Rise | Improvement
    | HighBp | HighHr | HighTemp | HighFace
    | NothingElse

  /** When each check-out rule applies, stated per rule rather than as an if-chain. */
  predicate CheckOutFires(t: CheckOutTrigger, s: SubScores, total: int, delta: int)
  {
    match t
    case SevereTotal => total >= 15
    case ModerateTotal => 10 <= total < 15
    case MildTotal => 6 <= total < 10
    case SharpRise => delta >= 6
    case Rise => 3 <= delta < 6
    case Improvement => delta <= -2
    case HighBp => s.bp >= 2
    case HighHr => s.hr >= 2
    case HighTemp => s.temp >= 2
    case HighFace => s.face >= 2
    case NothingElse =>
      total < 6 && -2 < delta < 3 && s.bp < 2 && s.hr < 2 && s.temp < 2 && s.face < 2
  }

  function CheckOutFacts(s: SubScores, total: int, delta: int): CheckOutTrigger -> bool
  {
    t => CheckOutFires(t, s, total, delta)
  }

  const CheckOutTotalRules: seq<Rule<CheckOutTrigger>> :=
    Group(SevereTotal, [SevereReferral, SevereRotation])
    + Group(ModerateTotal, [ModerateEvaluate, ModerateRest])
    + Group(MildTotal, [MildRest, MildMonitor])

  const CheckOutDeltaRules: seq<Rule<CheckOutTrigger>> :=
    Group(SharpRise, [SharpRiseNotice, SharpRiseAdjust])
    + Group(Rise, [RiseNotice, RiseRest])
    + Group(Improvement, [ImprovementNotice, ImprovementKeep])

  const CheckOutComponentRules: seq<Rule<CheckOutTrigger>> :=
    Group(HighBp, [BpCaution]) + Group(HighHr, [HrCaution]) + Group(HighTemp, [TempCaution]) + Group(HighFace, [FaceCaution])

  const CheckOutFallbackRules: seq<Rule<CheckOutTrigger>> := Group(NothingElse, [StableNotice, StableKeep])

  /** The check-out rule table: total tier, delta tier, components (bp, hr, temp, face), fallback. */
  const CheckOutTable: seq<Rule<CheckOutTrigger>> :=
    CheckOutTotalRules + CheckOutDeltaRules + CheckOutComponentRules + CheckOutFallbackRules

  /** What the check-out generator must return for these scores, total and delta. */
  function CheckOutRecommendations(s: SubScores, total: int, delta: int): seq<string>
  {
    Select(CheckOutTable, CheckOutFacts(s, total, delta))
  }

  function TotalTierMessages(total: int): seq<string>
  {
    if total >= 15 then [SevereReferral, SevereRotation]
    else if total >= 10 then [ModerateEvaluate, ModerateRest]
    else if total >= 6 then [MildRest, MildMonitor]
    else []
  }

  function DeltaTierMessages(delta: int): seq<string>
  {
    if delta >= 6 then [SharpRiseNotice, SharpRiseAdjust]
    else if delta >= 3 then [RiseNotice, RiseRest]
    else if delta <= -2 then [ImprovementNotice, ImprovementKeep]
    else []
  }

  lemma CheckOutTotalBlock(s: SubScores, total: int, delta: int)
    ensures Select(CheckOutTotalRules, CheckOutFacts(s, total, delta)) == TotalTierMessages(total)
  {
    var f := CheckOutFacts(s, total, delta);
    var a, b, c := Group(SevereTotal, [SevereReferral, SevereRotation]),
      Group(ModerateTotal, [ModerateEvaluate, ModerateRest]), Group(MildTotal, [MildRest, MildMonitor]);
    SelectAppend(a, b, f);
    SelectAppend(a + b, c, f);
    SelectGroup(SevereTotal, [SevereReferral, SevereRotation], f);
    SelectGroup(ModerateTotal, [ModerateEvaluate, ModerateRest], f);
    SelectGroup(MildTotal, [MildRest, MildMonitor], f);
  }

  lemma CheckOutDeltaBlock(s: SubScores, total: int, delta: int)
    ensures Select(CheckOutDeltaRules, CheckOutFacts(s, total, delta)) == DeltaTierMessages(delta)
  {
    var f := CheckOutFacts(s, total, delta);
    var a, b, c := Group(SharpRise, [SharpRiseNotice, SharpRiseAdjust]),
      Group(Rise, [RiseNotice, RiseRest]), Group(Improvement, [ImprovementNotice, ImprovementKeep]);
    SelectAppend(a, b, f);
    SelectAppend(a + b, c, f);
    SelectGroup(SharpRise, [SharpRiseNotice, SharpRiseAdjust], f);
    SelectGroup(Rise, [RiseNotice, RiseRest], f);
    SelectGroup(Improvement, [ImprovementNotice, ImprovementKeep], f);
  }

  /** One caution per vital sign scoring 2 or more, in the order bp, hr, temp, face. */
  function ComponentCautions(s: SubScores): seq<string>
  {
    (if s.bp >= 2 then [BpCaution] else []) + (if s.hr >= 2 then [HrCaution] else [])
    + (if s.temp >= 2 then [TempCaution] else []) + (if s.face >= 2 then [FaceCaution] else [])
  }

  /** The messages pushed before the fallback is considered. */
  function CheckOutHead(s: SubScores, total: int, delta: int): seq<string>
  {
    TotalTierMessages(total) + DeltaTierMessages(delta) + ComponentCautions(s)
  }

  lemma CheckOutComponentBlock(s: SubScores, total: int, delta: int)
    ensures Select(CheckOutComponentRules, CheckOutFacts(s, total, delta)) == ComponentCautions(s)
  {
    var f := CheckOutFacts(s, total, delta);
    var a, b, c, d := Group(HighBp, [BpCaution]), Group(HighHr, [HrCaution]),
      Group(HighTemp, [TempCaution]), Group(HighFace, [FaceCaution]);
    SelectAppend(a, b, f);
    SelectAppend(a + b, c, f);
    SelectAppend(a + b + c, d, f);
    SelectGroup(HighBp, [BpCaution], f);
    SelectGroup(HighHr, [HrCaution], f);
    SelectGroup(HighTemp, [TempCaution], f);
    SelectGroup(HighFace, [FaceCaution], f);
  }

  lemma CheckOutFallbackBlock(s: SubScores, total: int, delta: int)
    ensures Select(CheckOutFallbackRules, CheckOutFacts(s, total, delta)) ==
      if CheckOutFires(NothingElse, s, total, delta) then [StableNotice, StableKeep] else []
  {
    SelectGroup(NothingElse, [StableNotice, StableKeep], CheckOutFacts(s, total, delta));
  }

  lemma AppendThree(h: seq<string>, a: seq<string>, b: seq<string>, c: seq<string>)
    ensures h + a + b + c == h + (a + b + c)
  {
  }

  lemma AppendFour(h: seq<string>, a: seq<string>, b: seq<string>, c: seq<string>, d: seq<string>)
    ensures h + a + b + c + d == h + (a + b + c + d)
  {
  }

  /** The check-out table selects the three blocks, then the fallback when it fires. */
  lemma CheckOutBlocks(s: SubScores, total: int, delta: int)
    ensures CheckOutRecommendations(s, total, delta) ==
      CheckOutHead(s, total, delta) + (if CheckOutFires(NothingElse, s, total, delta) then [StableNotice, StableKeep] else [])
  {
    var f := CheckOutFacts(s, total, delta);
    var a, b, c, d := CheckOutTotalRules, CheckOutDeltaRules, CheckOutComponentRules, CheckOutFallbackRules;
    SelectAppend(a, b, f);
    SelectAppend(a + b, c, f);
    SelectAppend(a + b + c, d, f);
    CheckOutTotalBlock(s, total, delta);
    CheckOutDeltaBlock(s, total, delta);
    CheckOutComponentBlock(s, total, delta);
    CheckOutFallbackBlock(s, total, delta);
  }

  /** The fallback fires exactly when the three blocks pushed nothing. */
  lemma CheckOutHeadEmpty(s: SubScores, total: int, delta: int)
    ensures CheckOutHead(s, total, delta) == [] <==> CheckOutFires(NothingElse, s, total, delta)
  {
    assert |CheckOutHead(s, total, delta)| ==
      |TotalTierMessages(total)| + |DeltaTierMessages(delta)| + |ComponentCautions(s)|;
  }

  /** The total-tier block of `generateRecommendations`: at most one tier fires. */
  method PushTotalTier(recommendations: seq<string>, totalScore: int) returns (pushed: seq<string>)
    ensures pushed == recommendations + TotalTierMessages(totalScore)
  {
    pushed := recommendations;
    if totalScore >= 15 {
      pushed := pushed + [SevereReferral];
      pushed := pushed + [SevereRotation];
    } else if totalScore >= 10 {
      pushed := pushed + [ModerateEvaluate];
      pushed := pushed + [ModerateRest];
    } else if totalScore >= 6 {
      pushed := pushed + [MildRest];
      pushed := pushed + [MildMonitor];
    }
  }

  /** The delta-tier block of `generateRecommendations`: at most one tier fires. */
  method PushDeltaTier(recommendations: seq<string>, deltaTotal: int) returns (pushed: seq<string>)
    ensures pushed == recommendations + DeltaTierMessages(deltaTotal)
  {
    pushed := recommendations;
    if deltaTotal >= 6 {
      pushed := pushed + [SharpRiseNotice];
      pushed := pushed + [SharpRiseAdjust];
    } else if deltaTotal >= 3 {
      pushed := pushed + [RiseNotice];
      pushed := pushed + [RiseRest];
    } else if deltaTotal <= -2 {
      pushed := pushed + [ImprovementNotice];
      pushed := pushed + [ImprovementKeep];
    }
  }

  /** The component block of `generateRecommendations`: one caution per component at 2 or more. */
  method PushComponentCautions(recommendations: seq<string>, scores: SubScores) returns (pushed: seq<string>)
    ensures pushed == recommendations + ComponentCautions(scores)
  {
    pushed := recommendations;
    ghost var bp, hr, temp, face := if scores.bp >= 2 then [BpCaution] else [], if scores.hr >= 2 then [HrCaution] else [],
      if scores.temp >= 2 then [TempCaution] else [], if scores.face >= 2 then [FaceCaution] else [];
    if scores.bp >= 2 {
      pushed := pushed + [BpCaution];
    }
    assert pushed == recommendations + bp;
    if scores.hr >= 2 {
      pushed := pushed + [HrCaution];
    }
    assert pushed == recommendations + bp + hr;
    if scores.temp >= 2 {
      pushed := pushed + [TempCaution];
    }
    assert pushed == recommendations + bp + hr + temp;
    if scores.face >= 2 {
      pushed := pushed + [FaceCaution];
    }
    assert pushed == recommendations + bp + hr + temp + face;
    AppendFour(recommendations, bp, hr, temp, face);
  }

  /**
   * `generateRecommendations` (check-out): pushes the total tier, then the delta tier,
   * then one caution per component scoring 2 or more, and the two stable messages if
   * the list is still empty.
   */
  method GenerateRecommendations(scores: SubScores, totalScore: int, deltaTotal: int) returns (recommendations: seq<string>)
    ensures recommendations == CheckOutRecommendations(scores, totalScore, deltaTotal)
  {
    recommendations := PushTotalTier([], totalScore);
    recommendations := PushDeltaTier(recommendations, deltaTotal);
    recommendations := PushComponentCautions(recommendations, scores);
    assert recommendations == CheckOutHead(scores, totalScore, deltaTotal);

    CheckOutBlocks(scores, totalScore, deltaTotal);
    CheckOutHeadEmpty(scores, totalScore, deltaTotal);
    if |recommendations| == 0 {
      recommendations := recommendations + [StableNotice];
      recommendations := recommendations + [StableKeep];
    }
  }

  /**
   * The check-out list is never empty and holds at most eight messages; it is exactly
   * the two stable messages when no tier and no component fired, and otherwise does not
   * contain them.
   */
  lemma CheckOutRecommendationsShape(s: SubScores, total: int, delta: int)
    ensures var r := CheckOutRecommendations(s, total, delta);
      && 1 <= |r| <= 8
      && (r == [StableNotice, StableKeep] <==> CheckOutFires(NothingElse, s, total, delta))
      && (!CheckOutFires(NothingElse, s, total, delta) ==> StableNotice !in r && StableKeep !in r)
  {
    CheckOutBlocks(s, total, delta);
    CheckOutHeadEmpty(s, total, delta);
    var r, head := CheckOutRecommendations(s, total, delta), CheckOutHead(s, total, delta);
    if !CheckOutFires(NothingElse, s, total, delta) {
      assert r == head;
      assert StableNotice !in TotalTierMessages(total) && StableKeep !in TotalTierMessages(total);
      assert StableNotice !in DeltaTierMessages(delta) && StableKeep !in DeltaTierMessages(delta);
      assert StableNotice !in ComponentCautions(s) && StableKeep !in ComponentCautions(s);
      assert r[0] in r;
    }
  }

  /** The check-out list follows table order: total tier, delta tier, bp, hr, temp, face, fallback. */
  lemma CheckOutRecommendationsOrdered(s: SubScores, total: int, delta: int)
    ensures IsSubsequence(CheckOutRecommendations(s, total, delta), Messages(CheckOutTable))
  {
    SelectInTableOrder(CheckOutTable, CheckOutFacts(s, total, delta));
  }

  // ---------------------------------------------------------------------------
  // The questionnaire generator
  // ---------------------------------------------------------------------------

  const QSevereReferral := "Segera lakukan skrining medis atau rujukan"
  const QSevereRotation := "Pertimbangkan rotasi atau cuti"
  const QSevereSupervisor := "Konsultasi dengan supervisor untuk penyesuaian beban kerja"
  const QModerateEvaluate := "Evaluasi shift dan beban kerja dengan supervisor"
  const QModerateRest := "Ambil istirahat yang cukup"
  const QModerateMonitor := "Monitor kondisi lebih ketat"
  const QMildBreaks := "Ambil istirahat aktif setiap 2 jam"
  const QMildHydrate := "Pastikan hidrasi yang cukup"
  const QMildMonitor := "Monitor kondisi pada check-out"
  const QFitKeep := "Pertahankan pola kerja dan istirahat yang baik"
  const QFitWatch := "Terus pantau kondisi kesehatan"
  const QFasCaution := "Perhatikan tanda-tanda kelelahan fisik dan mental"
  const QPsqiCaution := "Tingkatkan kualitas tidur dengan sleep hygiene yang baik"
  const QPaCaution := "Kurangi aktivitas fisik berlebihan, ambil istirahat berkala"

  datatype QuestionnaireTrigger =
    | SevereTier | ModerateTier | MildTier | FitTier
    | HighFas | HighPsqi | CriticalPa

  predicate QuestionnaireFires(t: QuestionnaireTrigger, s: QuestionnaireScores, total: int)
  {
    match t
    case SevereTier => total >= 15
    case ModerateTier => 10 <= total < 15
    case MildTier => 6 <= total < 10
    case FitTier => total < 6
    case HighFas => s.fas >= 2
    case HighPsqi => s.psqi >= 2
    case CriticalPa => s.pa >= 3
  }

  function QuestionnaireFacts(s: QuestionnaireScores, total: int): QuestionnaireTrigger -> bool
  {
    t => QuestionnaireFires(t, s, total)
  }

  const QuestionnaireTierRules: seq<Rule<QuestionnaireTrigger>> :=
    Group(SevereTier, [QSevereReferral, QSevereRotation, QSevereSupervisor])
    + Group(ModerateTier, [QModerateEvaluate, QModerateRest, QModerateMonitor])
    + Group(MildTier, [QMildBreaks, QMildHydrate, QMildMonitor])
    + Group(FitTier, [QFitKeep, QFitWatch])

  const QuestionnaireComponentRules: seq<Rule<QuestionnaireTrigger>> :=
    Group(HighFas, [QFasCaution]) + Group(HighPsqi, [QPsqiCaution]) + Group(CriticalPa, [QPaCaution])

  /** The questionnaire rule table: one tier out of four, then fas, psqi and pa cautions. */
  const QuestionnaireTable: seq<Rule<QuestionnaireTrigger>> := QuestionnaireTierRules + QuestionnaireComponentRules

  /** What the questionnaire generator must return for these scores and total. */
  function QuestionnaireRecommendations(s: QuestionnaireScores, total: int): seq<string>
  {
    Select(QuestionnaireTable, QuestionnaireFacts(s, total))
  }

  function TierMessages(total: int): seq<string>
  {
    if total >= 15 then [QSevereReferral, QSevereRotation, QSevereSupervisor]
    else if total >= 10 then [QModerateEvaluate, QModerateRest, QModerateMonitor]
    else if total >= 6 then [QMildBreaks, QMildHydrate, QMildMonitor]
    else [QFitKeep, QFitWatch]
  }

  lemma QuestionnaireTierBlock(s: QuestionnaireScores, total: int)
    ensures Select(QuestionnaireTierRules, QuestionnaireFacts(s, total)) == TierMessages(total)
  {
    var f := QuestionnaireFacts(s, total);
    var a, b, c, d := Group(SevereTier, [QSevereReferral, QSevereRotation, QSevereSupervisor]),
      Group(ModerateTier, [QModerateEvaluate, QModerateRest, QModerateMonitor]),
      Group(MildTier, [QMildBreaks, QMildHydrate, QMildMonitor]),
      Group(FitTier, [QFitKeep, QFitWatch]);
    SelectAppend(a, b, f);
    SelectAppend(a + b, c, f);
    SelectAppend(a + b + c, d, f);
    SelectGroup(SevereTier, [QSevereReferral, QSevereRotation, QSevereSupervisor], f);
    SelectGroup(ModerateTier, [QModerateEvaluate, QModerateRest, QModerateMonitor], f);
    SelectGroup(MildTier, [QMildBreaks, QMildHydrate, QMildMonitor], f);
    SelectGroup(FitTier, [QFitKeep, QFitWatch], f);
  }

  /** The fas, psqi and pa cautions that follow the tier. */
  function QuestionnaireCautions(s: QuestionnaireScores): seq<string>
  {
    (if s.fas >= 2 then [QFasCaution] else []) + (if s.psqi >= 2 then [QPsqiCaution] else [])
    + (if s.pa >= 3 then [QPaCaution] else [])
  }

  lemma QuestionnaireComponentBlock(s: QuestionnaireScores, total: int)
    ensures Select(QuestionnaireComponentRules, QuestionnaireFacts(s, total)) == QuestionnaireCautions(s)
  {
    var f := QuestionnaireFacts(s, total);
    var a, b, c := Group(HighFas, [QFasCaution]), Group(HighPsqi, [QPsqiCaution]), Group(CriticalPa, [QPaCaution]);
    SelectAppend(a, b, f);
    SelectAppend(a + b, c, f);
    SelectGroup(HighFas, [QFasCaution], f);
    SelectGroup(HighPsqi, [QPsqiCaution], f);
    SelectGroup(CriticalPa, [QPaCaution], f);
  }

  /** The questionnaire table selects one tier, then the cautions. */
  lemma QuestionnaireBlocks(s: QuestionnaireScores, total: int)
    ensures QuestionnaireRecommendations(s, total) == TierMessages(total) + QuestionnaireCautions(s)
  {
    SelectAppend(QuestionnaireTierRules, QuestionnaireComponentRules, QuestionnaireFacts(s, total));
    QuestionnaireTierBlock(s, total);
    QuestionnaireComponentBlock(s, total);
  }

  /**
   * `getRecommendations` (questionnaire): pushes exactly one tier (three messages for
   * a total of 15, 10 or 6 and above, two otherwise), then the fas, psqi and pa cautions.
   */
  method GetRecommendations(scores: QuestionnaireScores, totalScore: int) returns (recommendations: seq<string>)
    ensures recommendations == QuestionnaireRecommendations(scores, totalScore)
  {
    recommendations := [];

    if totalScore >= 15 {
      recommendations := recommendations + [QSevereReferral];
      recommendations := recommendations + [QSevereRotation];
      recommendations := recommendations + [QSevereSupervisor];
    } else if totalScore >= 10 {
      recommendations := recommendations + [QModerateEvaluate];
      recommendations := recommendations + [QModerateRest];
      recommendations := recommendations + [QModerateMonitor];
    } else if totalScore >= 6 {
      recommendations := recommendations + [QMildBreaks];
      recommendations := recommendations + [QMildHydrate];
      recommendations := recommendations + [QMildMonitor];
    } else {
      recommendations := recommendations + [QFitKeep];
      recommendations := recommendations + [QFitWatch];
    }
    assert recommendations == TierMessages(totalScore);

    ghost var tier := recommendations;
    ghost var fas, psqi, pa := if scores.fas >= 2 then [QFasCaution] else [],
      if scores.psqi >= 2 then [QPsqiCaution] else [], if scores.pa >= 3 then [QPaCaution] else [];
    if scores.fas >= 2 {
      recommendations := recommendations + [QFasCaution];
    }
    assert recommendations == tier + fas;
    if scores.psqi >= 2 {
      recommendations := recommendations + [QPsqiCaution];
    }
    assert recommendations == tier + fas + psqi;
    if scores.pa >= 3 {
      recommendations := recommendations + [QPaCaution];
    }
    assert recommendations == tier + fas + psqi + pa;
    AppendThree(tier, fas, psqi, pa);
    QuestionnaireBlocks(scores, totalScore);
  }

  /**
   * The questionnaire list opens with exactly one tier's messages (two or three) and
   * then holds the component cautions, so its length is between 2 and 6.
   */
  lemma QuestionnaireRecommendationsShape(s: QuestionnaireScores, total: int)
    ensures var r := QuestionnaireRecommendations(s, total);
      && 2 <= |r| <= 6
      && |TierMessages(total)| == (if total >= 6 then 3 else 2)
      && TierMessages(total) <= r
  {
    QuestionnaireBlocks(s, total);
  }
}
