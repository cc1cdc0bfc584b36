/**
 * The bonus calculator: a bonus split into its federal, state and local
 * tax shares, its FICA share and what is left. The rates here are
 * fractions (0.22 for 22%), not percentages.
 */
module Bonus {

  /** The breakdown of one bonus: the bonus itself, the four tax shares and the net bonus. */
  datatype BonusBreakdown = BonusBreakdown(
    initialBonus: real,
    federalTax: real,
    stateTax: real,
    localTax: real,
    fica: real,
    netBonus: real)

  /** The four rates together: the share of the bonus that goes to tax. */
  function TotalRate(federalTax: real, stateTax: real, localTax: real, fica: real): real
  {
    federalTax + stateTax + localTax + fica
  }

  /**
   * The post-tax bonus. Each tax share is its rate applied to the whole
   * bonus, and the net bonus is the bonus less all four rates; so the
   * shares and the net bonus add back up to the bonus, and the net bonus
   * is the share of the bonus that is left once the total rate is taken.
   */
  function CalculateBonusPostTax(bonus: real, federalTax: real, stateTax: real, localTax: real,
                                 fica: real): (r: BonusBreakdown)
    ensures r.initialBonus == bonus
    ensures r.federalTax == bonus * federalTax && r.stateTax == bonus * stateTax
    ensures r.localTax == bonus * localTax && r.fica == bonus * fica
    ensures r.netBonus + r.federalTax + r.stateTax + r.localTax + r.fica == r.initialBonus
    ensures r.netBonus == bonus - bonus * TotalRate(federalTax, stateTax, localTax, fica)
  {
    var netBonus := bonus * (1.0 - federalTax - stateTax - localTax - fica);
    BonusBreakdown(bonus, bonus * federalTax, bonus * stateTax, bonus * localTax, bonus * fica, netBonus)
  }

  /** With no tax at all, the whole bonus is kept. */
  lemma UntaxedBonusKept(bonus: real)
    ensures CalculateBonusPostTax(bonus, 0.0, 0.0, 0.0, 0.0).netBonus == bonus
  {}

  /**
   * With non-negative rates that together take at most the whole bonus, a
   * non-negative bonus leaves a net bonus between nothing and the bonus.
   */
  lemma NetBonusWithinBonus(bonus: real, federalTax: real, stateTax: real, localTax: real, fica: real)
    requires bonus >= 0.0
    requires federalTax >= 0.0 && stateTax >= 0.0 && localTax >= 0.0 && fica >= 0.0
    requires TotalRate(federalTax, stateTax, localTax, fica) <= 1.0
    ensures 0.0 <= CalculateBonusPostTax(bonus, federalTax, stateTax, localTax, fica).netBonus <= bonus
  {
    var t := TotalRate(federalTax, stateTax, localTax, fica);
    ProductNonNegative(bonus, t);
    ProductNonNegative(bonus, 1.0 - t);
  }

  /** Under rates that together take at most the whole bonus, a larger bonus never nets less. */
  lemma NetBonusMonotone(bonus: real, bonus': real, federalTax: real, stateTax: real, localTax: real, fica: real)
    requires bonus <= bonus'
    requires TotalRate(federalTax, stateTax, localTax, fica) <= 1.0
    ensures CalculateBonusPostTax(bonus, federalTax, stateTax, localTax, fica).netBonus
            <= CalculateBonusPostTax(bonus', federalTax, stateTax, localTax, fica).netBonus
  {
    var t := TotalRate(federalTax, stateTax, localTax, fica);
    ProductNonNegative(bonus' - bonus, 1.0 - t);
    assert bonus' - bonus' * t - (bonus - bonus * t) == (bonus' - bonus) * (1.0 - t);
  }

  lemma ProductNonNegative(x: real, y: real)
    requires x >= 0.0 && y >= 0.0
    ensures x * y >= 0.0
  {}
}
