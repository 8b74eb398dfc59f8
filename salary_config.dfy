/** The frontend salary and penalty configuration (config/salaryConfig.js). */
module SalaryConfig {

  datatype BonusRule = BonusRule(max: real, bonus: real)

  datatype Config = Config(
    payPerConversation: real,
    unrepliedPenalty: real,
    lateResponsePenalty: real,
    responseTimeThreshold: real,
    bonusRules: seq<BonusRule>)

  const SALARY_CONFIG: Config := Config(
    20.0, 500.0, 2000.0, 5.0,
    [BonusRule(1.0, 0.0), BonusRule(3.0, 0.0), BonusRule(4.0, 0.0), BonusRule(5.0, 0.0)])

  /** Bonus tiers ordered by their upper bound, strictly. */
  predicate StrictlyAscending(rules: seq<BonusRule>)
  {
    forall i, j :: 0 <= i < j < |rules| ==> rules[i].max < rules[j].max
  }

  lemma ConfigConstants()
    ensures SALARY_CONFIG.payPerConversation == 20.0
    ensures SALARY_CONFIG.unrepliedPenalty == 500.0
    ensures SALARY_CONFIG.lateResponsePenalty == 2000.0
    ensures SALARY_CONFIG.responseTimeThreshold == 5.0
  {
  }

  lemma BonusRulesAscending()
    ensures StrictlyAscending(SALARY_CONFIG.bonusRules)
  {
  }

  lemma BonusRulesAllZero()
    ensures forall i :: 0 <= i < |SALARY_CONFIG.bonusRules| ==> SALARY_CONFIG.bonusRules[i].bonus == 0.0
  {
  }
}
