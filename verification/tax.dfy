/** The income-tax ledger of the simulation: a 15% tax on each trade's
    positive gross result after offsetting the losses carried forward from
    earlier trades (`prej_acumulado`). */
module Tax {
  import opened Common

  const TaxRate: real := 0.15

  /** Tax charged on one trade and the loss carry left behind it. */
  datatype TaxOutcome = TaxOutcome(tax: real, carry: real)

  /** One trade through the ledger. A gain first uses up the carried loss and
      only the rest is taxed; a loss or a zero result is untaxed and adds its
      size to the carry. Whatever the carry, the tax is 15% of the gross
      result plus the change in the carry; from a non-negative carry the new
      carry is non-negative and the tax lies between zero and 15% of the gain. */
  function TaxStep(carry: real, gross: real): (t: TaxOutcome)
    ensures t.tax == TaxRate * (gross + t.carry - carry)
    ensures gross <= 0.0 ==> t.tax == 0.0
    ensures carry >= 0.0 ==> t.carry >= 0.0 && 0.0 <= t.tax <= TaxRate * Max(0.0, gross)
  {
    if gross > 0.0 then
      var base := Max(0.0, gross - carry);
      TaxOutcome(base * TaxRate, carry - (gross - base))
    else
      TaxOutcome(0.0, carry + Abs(gross))
  }

  /** From a non-negative carry both branches collapse into one formula: the
      new carry is what is left of the old one after the result, the tax is
      15% of the part of the result the carry does not absorb. */
  lemma TaxStepClosedForm(carry: real, gross: real)
    requires carry >= 0.0
    ensures TaxStep(carry, gross) == TaxOutcome(TaxRate * Max(0.0, gross - carry), Max(0.0, carry - gross))
  {
  }

  /** Net result of a trade after its tax (`liq_trade`): never above the gross
      result, and equal to it when the result is not a gain. */
  function NetOfTax(carry: real, gross: real): (net: real)
    ensures carry >= 0.0 ==> net <= gross
    ensures gross <= 0.0 ==> net == gross
    ensures carry >= 0.0 && gross > 0.0 ==> net >= (1.0 - TaxRate) * gross
  {
    gross - TaxStep(carry, gross).tax
  }

  /** A loss of 1000 followed by a gain of 1500: no tax and a carry of 1000
      after the first trade, then 15% of the 500 left over, 75, and no carry. */
  lemma WorkedLossThenGain()
    ensures TaxStep(0.0, -1000.0) == TaxOutcome(0.0, 1000.0)
    ensures TaxStep(1000.0, 1500.0) == TaxOutcome(75.0, 0.0)
  {
  }

  /** The ledger run over a whole sequence of gross results in trade order:
      the total tax and the final carry. */
  function Ledger(carry: real, grosses: seq<real>): (t: TaxOutcome)
    decreases |grosses|
  {
    if |grosses| == 0 then TaxOutcome(0.0, carry)
    else
      var first := TaxStep(carry, grosses[0]);
      var rest := Ledger(first.carry, grosses[1..]);
      TaxOutcome(first.tax + rest.tax, rest.carry)
  }

  /** Over any run, the carry never becomes negative and the total tax is 15%
      of the total gross result plus the growth of the carry: every loss that
      is still carried at the end is a loss nobody got a tax offset for. */
  lemma {:induction false} LedgerConservation(carry: real, grosses: seq<real>)
    requires carry >= 0.0
    ensures Ledger(carry, grosses).carry >= 0.0
    ensures Ledger(carry, grosses).tax == TaxRate * (Sum(grosses) + Ledger(carry, grosses).carry - carry)
    decreases |grosses|
  {
    if |grosses| > 0 {
      LedgerConservation(TaxStep(carry, grosses[0]).carry, grosses[1..]);
    }
  }

  /** Over any run from a non-negative carry the total tax is never negative
      and never more than 15% of the sum of the gains. */
  lemma {:induction false} LedgerTaxBounds(carry: real, grosses: seq<real>)
    requires carry >= 0.0
    ensures 0.0 <= Ledger(carry, grosses).tax <= TaxRate * SumGains(grosses)
    decreases |grosses|
  {
    if |grosses| > 0 {
      LedgerTaxBounds(TaxStep(carry, grosses[0]).carry, grosses[1..]);
    }
  }

  /** Sum of the positive entries of a sequence. */
  function SumGains(grosses: seq<real>): real
  {
    if |grosses| == 0 then 0.0 else Max(0.0, grosses[0]) + SumGains(grosses[1..])
  }
}
