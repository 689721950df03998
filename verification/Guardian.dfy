/** The legacy rail's verdict: the deterministic rule, sharpened by the semantic risk score. */
module Guardian {
  import opened Common
  import opened PolicyEngine
  import opened Normaliser

  datatype Verdict = Verdict(
    decision: Decision,
    riskScore: int,
    deterministicPassed: bool,
    requiresHumanApproval: bool)

  /** Division rounding toward zero, as on JavaScript's BigInt. */
  function TruncDiv(a: int, b: int): int
    requires b != 0
  {
    if a >= 0 then a / b else -((-a) / b)
  }

  /** The part of the score the amount contributes: the single-payment limit used, in 25ths. */
  function AmountShare(m: Mandate, amount: int): int
    requires m.maxAutonomousAmount != 0
  {
    TruncDiv(amount * 10000, m.maxAutonomousAmount) / 400
  }

  function Score(m: Mandate, semantic: int, amount: int): int {
    if m.maxAutonomousAmount == 0 || amount > m.maxAutonomousAmount
    then Max(semantic, 75)
    else semantic + AmountShare(m, amount)
  }

  function Judge(m: Mandate, spent: int, recipient: string, token: string, amount: int, justification: string)
    : Verdict
  {
    var rule := Rule(m, spent, recipient, token, amount);
    var score := Score(m, Analyse(justification).riskScore, amount);
    match rule
    case BLOCK => Verdict(BLOCK, 100, false, false)
    case ESCALATE => Verdict(ESCALATE, Max(score, 75), false, true)
    case ALLOW =>
      if score >= 50 then Verdict(ESCALATE, score, true, true)
      else Verdict(ALLOW, score, true, false)
  }

  method EvaluateAction(policyEngine: PolicyEngineService, recipient: string, token: string, amount: int,
                        justification: string, timestampSeconds: nat)
    returns (v: Verdict)
    modifies policyEngine`dailySpentMap
    ensures v == Judge(policyEngine.mandate, SpentOn(old(policyEngine.View()), DayId(timestampSeconds)),
                       recipient, token, amount, justification)
    ensures policyEngine.View() == old(policyEngine.View())
         || policyEngine.View() == Read(old(policyEngine.View()), DayId(timestampSeconds))
  {
    var deterministic := policyEngine.EvaluateDeterministicRules(recipient, token, amount, timestampSeconds);
    var semantic := PerformMultiLayerSemanticAnalysis(justification);
    var riskScore := semantic.riskScore;
    var m := policyEngine.mandate;
    if m.maxAutonomousAmount == 0 || amount > m.maxAutonomousAmount {
      riskScore := Max(riskScore, 75);
    } else {
      var tenThousandths := TruncDiv(amount * 10000, m.maxAutonomousAmount);
      riskScore := riskScore + tenThousandths / 400;
    }
    if deterministic == BLOCK {
      return Verdict(BLOCK, 100, false, false);
    }
    if deterministic == ESCALATE {
      return Verdict(ESCALATE, Max(riskScore, 75), false, true);
    }
    if riskScore >= 50 {
      return Verdict(ESCALATE, riskScore, true, true);
    }
    v := Verdict(ALLOW, riskScore, true, false);
  }

  // ---------------------------------------------------------------- properties

  /** The quotient is the exact one cut off toward zero. */
  lemma DivisionTruncates(a: int, b: int)
    requires b != 0
    ensures var q := TruncDiv(a, b);
            var rest := a - b * q;
            && (if b > 0 then -b < rest < b else b < rest < -b)
            && (rest > 0 ==> a > 0) && (rest < 0 ==> a < 0)
  {
    if a >= 0 {
      assert a == b * (a / b) + a % b;
    } else {
      assert -a == b * ((-a) / b) + (-a) % b;
      assert b * -((-a) / b) == -(b * ((-a) / b));
    }
  }

  lemma DivMonotone(a: nat, b: nat, d: nat)
    requires a <= b && 0 < d
    ensures a / d <= b / d
  {
    if b / d < a / d {
      assert a == d * (a / d) + a % d && b == d * (b / d) + b % d;
      MulMonotone(b / d + 1, a / d, d);
    }
  }

  lemma MulMonotone(x: int, y: int, d: nat)
    requires x <= y
    ensures d * x <= d * y
  {
  }

  /** Within the single-payment limit the amount's share of the score grows with it, from 0 to at most 25. */
  lemma ShareIsMonotone(m: Mandate, a: nat, b: nat)
    requires a <= b <= m.maxAutonomousAmount && 0 < m.maxAutonomousAmount
    ensures 0 <= AmountShare(m, a) <= AmountShare(m, b) <= 25
  {
    var max: nat := m.maxAutonomousAmount;
    var qa, qb := (a * 10000) / max, (b * 10000) / max;
    assert qa <= qb <= 10000 by {
      DivMonotone(a * 10000, b * 10000, max);
      DivMonotone(b * 10000, max * 10000, max);
      DivExact(10000, max);
    }
    assert 0 <= qa by {
      DivMonotone(0, a * 10000, max);
    }
    assert AmountShare(m, a) == qa / 400 && AmountShare(m, b) == qb / 400;
  }

  lemma DivExact(x: nat, d: nat)
    requires 0 < d
    ensures (d * x) / d == x
  {
    if (d * x) / d < x {
      MulMonotone((d * x) / d + 1, x, d);
    } else if (d * x) / d > x {
      MulMonotone(x + 1, (d * x) / d, d);
    }
  }

  /** Raising the amount never softens a verdict: BLOCK does not depend on the amount, and once a
      payment escalates every larger one does. */
  lemma VerdictIsMonotone(m: Mandate, spent: int, recipient: string, token: string, a: nat, b: nat, why: string)
    requires a <= b
    ensures var va := Judge(m, spent, recipient, token, a, why).decision;
            var vb := Judge(m, spent, recipient, token, b, why).decision;
            (va == BLOCK <==> vb == BLOCK) && (va == ESCALATE ==> vb == ESCALATE)
  {
    AnalysisScore(why);
    if b <= m.maxAutonomousAmount && 0 < m.maxAutonomousAmount {
      ShareIsMonotone(m, a, b);
    }
  }

  /** The score stays within 0..125; an autonomous payment scored below 50. */
  lemma ScoreBounds(m: Mandate, spent: int, recipient: string, token: string, amount: nat, why: string)
    ensures var v := Judge(m, spent, recipient, token, amount, why);
            && 0 <= v.riskScore <= 125
            && (v.decision == ALLOW ==> v.riskScore < 50)
            && (v.decision == ALLOW <==> v.deterministicPassed && !v.requiresHumanApproval)
  {
    AnalysisScore(why);
    if amount <= m.maxAutonomousAmount && 0 < m.maxAutonomousAmount {
      ShareIsMonotone(m, amount, amount);
    }
  }

  /** The three verdicts and their scores, exactly: BLOCK off the lists; ALLOW on both lists, within both limits, and
      with less than 50 points from the text and from the part of the single-payment limit used, in 25ths; ESCALATE
      otherwise. Ten thousandths of the limit are cut off toward zero, 25ths are rounded down. */
  lemma VerdictIs(m: Mandate, spent: int, recipient: string, token: string, amount: int, why: string)
    ensures var v := Judge(m, spent, recipient, token, amount, why);
            var listed := && (exists i :: 0 <= i < |m.approvedRecipients|
                                          && ToLower(m.approvedRecipients[i]) == ToLower(recipient))
                          && (exists i :: 0 <= i < |m.approvedTokens|
                                          && ToLower(m.approvedTokens[i]) == ToLower(token));
            var within := amount <= m.maxAutonomousAmount && spent + amount <= m.dailyAutonomousLimit;
            var semantic := Analyse(why).riskScore;
            var used := if m.maxAutonomousAmount == 0 then 0
                        else if amount >= 0 then amount * 10000 / m.maxAutonomousAmount
                        else -(-amount * 10000 / m.maxAutonomousAmount);
            && (v.decision == BLOCK <==> !listed)
            && (v.decision == ALLOW <==>
                  && listed && within && m.maxAutonomousAmount != 0
                  && semantic + used / 400 < 50)
            && (v.deterministicPassed <==> listed && within)
            && (v.requiresHumanApproval <==> v.decision == ESCALATE)
            && (v.decision == BLOCK ==> v.riskScore == 100)
            && (v.decision == ALLOW ==>
                  v.riskScore == semantic + used / 400)
            && (v.decision == ESCALATE && (amount > m.maxAutonomousAmount || m.maxAutonomousAmount == 0) ==>
                  v.riskScore == if semantic > 75 then semantic else 75)
            && (v.decision == ESCALATE && amount <= m.maxAutonomousAmount && m.maxAutonomousAmount != 0 ==>
                  var score := semantic + used / 400;
                  v.riskScore == if within || score > 75 then score else 75)
  {
    hide Analyse, ToLower;
  }

  lemma ShareAtTheLimit(m: Mandate)
    requires 0 < m.maxAutonomousAmount
    ensures AmountShare(m, m.maxAutonomousAmount) == 25
  {
    DivExact(10000, m.maxAutonomousAmount);
  }

  /** The reported score can drop as the amount grows, though the verdict never softens: a payment over the
      limit scores less than one within it exactly when the semantic score and the amount's share come to
      more than the floor of 75. */
  lemma ScoreDropsIff(m: Mandate, spent: int, recipient: string, token: string, a: nat, b: nat, why: string)
    requires a <= m.maxAutonomousAmount < b && 0 < m.maxAutonomousAmount
    requires Judge(m, spent, recipient, token, a, why).decision != BLOCK
    ensures Judge(m, spent, recipient, token, b, why).riskScore < Judge(m, spent, recipient, token, a, why).riskScore
            <==> Analyse(why).riskScore + AmountShare(m, a) > Max(Analyse(why).riskScore, 75)
  {
    hide Analyse;
    AnalysisScore(why);
    ShareIsMonotone(m, a, a);
  }

  lemma ScoreGrows(m: Mandate, spent: int, recipient: string, token: string, a: nat, b: nat, why: string)
    requires a <= b && (m.maxAutonomousAmount <= 0 || Analyse(why).riskScore <= 15)
    ensures Judge(m, spent, recipient, token, a, why).riskScore <= Judge(m, spent, recipient, token, b, why).riskScore
  {
    hide Analyse, ListsIgnoringCase;
    AnalysisScore(why);
    if 0 < m.maxAutonomousAmount {
      if b <= m.maxAutonomousAmount {
        ShareIsMonotone(m, a, b);
      } else if a <= m.maxAutonomousAmount {
        ShareIsMonotone(m, a, a);
      }
    }
  }

  /** The reported score grows with the amount if and only if the recipient or token is not approved, the limit
      is zero, or the text shows neither subversion nor exfiltration. */
  lemma ScoreIsMonotoneIff(m: Mandate, spent: int, recipient: string, token: string, why: string)
    ensures (forall a: nat, b: nat :: a <= b ==>
               Judge(m, spent, recipient, token, a, why).riskScore
               <= Judge(m, spent, recipient, token, b, why).riskScore)
            <==> || !ListsIgnoringCase(m.approvedRecipients, recipient) || !ListsIgnoringCase(m.approvedTokens, token)
                 || m.maxAutonomousAmount <= 0
                 || (&& InstructionSubversion !in Analyse(why).detectedIntents
                     && TreasuryExfiltration !in Analyse(why).detectedIntents)
  {
    hide Analyse, ListsIgnoringCase;
    AnalysisScore(why);
    if m.maxAutonomousAmount <= 0 || Analyse(why).riskScore <= 15 {
      forall a: nat, b: nat | a <= b
        ensures Judge(m, spent, recipient, token, a, why).riskScore
                <= Judge(m, spent, recipient, token, b, why).riskScore
      {
        ScoreGrows(m, spent, recipient, token, a, b, why);
      }
    } else if ListsIgnoringCase(m.approvedRecipients, recipient) && ListsIgnoringCase(m.approvedTokens, token) {
      var max: nat := m.maxAutonomousAmount;
      ShareAtTheLimit(m);
      ScoreDropsIff(m, spent, recipient, token, max, max + 1, why);
      var least, most := Judge(m, spent, recipient, token, max, why), Judge(m, spent, recipient, token, max + 1, why);
      assert most.riskScore < least.riskScore;
    }
  }
}
