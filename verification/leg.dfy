/** One option leg held from an entry row to an exit row: strike, premium,
    European payoff at the exit price, the exercise flag, the two exchange
    fees and the net result for the holder or for the writer. */
module Leg {
  import opened Common

  /** The option type; the source compares the string `tipo` with 'Call' and 'Put'. */
  datatype OptionKind = Call | Put

  /** 'Comprado' (the holder, who pays the premium) or 'Vendido' (the writer, who receives it). */
  datatype Side = Long | Short

  /** One configured leg: type, side, strike offset in percent of the entry
      price (may be negative) and premium in percent of the entry price. */
  datatype LegConfig = LegConfig(kind: OptionKind, side: Side, offsetPct: real, premiumPct: real)

  /** What `calcular_leg` hands back: the net result and the fees paid. */
  datatype LegResult = LegResult(result: real, costs: real)

  /** Exchange fee: 0.5% of the premium on entry, 0.5% of the notional at strike on exercise. */
  const FeeRate: real := 0.005

  function Strike(entry: real, offsetPct: real): real
  {
    entry * (1.0 + offsetPct / 100.0)
  }

  /** Premium cash for the whole lot (`fin_premio`), always a magnitude. */
  function PremiumCash(entry: real, qty: nat, premiumPct: real): real
  {
    entry * (premiumPct / 100.0) * (qty as real)
  }

  /** The leg finishes in the money: a Call above its strike, a Put below it. */
  predicate Exercised(kind: OptionKind, strike: real, exit: real)
  {
    match kind
    case Call => exit > strike
    case Put => exit < strike
  }

  /** Intrinsic value per unit at the exit price, negative when out of the money. */
  function Intrinsic(kind: OptionKind, strike: real, exit: real): real
  {
    match kind
    case Call => exit - strike
    case Put => strike - exit
  }

  /** European payoff per unit at the exit price. It is never negative, it is
      positive exactly when the leg is exercised, and then it is the intrinsic
      value; otherwise it is zero. */
  function PayoffPerUnit(kind: OptionKind, strike: real, exit: real): (u: real)
    ensures u >= 0.0 && u >= Intrinsic(kind, strike, exit)
    ensures u > 0.0 <==> Exercised(kind, strike, exit)
    ensures Exercised(kind, strike, exit) ==> u == Intrinsic(kind, strike, exit)
    ensures !Exercised(kind, strike, exit) ==> u == 0.0
  {
    match kind
    case Call => Max(0.0, exit - strike)
    case Put => Max(0.0, strike - exit)
  }

  /** Fees of one leg: the entry fee on the premium always, the exercise fee
      on strike times quantity only when the leg is exercised. */
  function Costs(kind: OptionKind, strike: real, exit: real, premium: real, qty: nat): real
  {
    FeeRate * premium + (if Exercised(kind, strike, exit) then strike * (qty as real) * FeeRate else 0.0)
  }

  /** `calcular_leg`: the holder gains the payoff and pays premium and fees,
      the writer receives the premium and pays payoff and fees. */
  function EvaluateLeg(entry: real, exit: real, qty: nat, leg: LegConfig): (r: LegResult)
    ensures var fee := FeeRate * PremiumCash(entry, qty, leg.premiumPct);
            if Exercised(leg.kind, Strike(entry, leg.offsetPct), exit)
            then r.costs == fee + FeeRate * Strike(entry, leg.offsetPct) * (qty as real)
            else r.costs == fee
    ensures leg.side == Long ==> r.result >= -(PremiumCash(entry, qty, leg.premiumPct) + r.costs)
    ensures leg.side == Short ==> r.result <= PremiumCash(entry, qty, leg.premiumPct) - r.costs
  {
    var strike := Strike(entry, leg.offsetPct);
    var premium := PremiumCash(entry, qty, leg.premiumPct);
    var payoff := PayoffPerUnit(leg.kind, strike, exit) * (qty as real);
    var costs := Costs(leg.kind, strike, exit, premium, qty);
    var res := if leg.side == Long then payoff - premium - costs else premium - payoff - costs;
    LegResult(res, costs)
  }

  /** Fees are never negative when the entry price, premium percentage and
      strike are non-negative (the strike is, for offsets of at least -100%). */
  lemma CostsNonNegative(entry: real, exit: real, qty: nat, leg: LegConfig)
    requires entry >= 0.0 && leg.premiumPct >= 0.0 && leg.offsetPct >= -100.0
    ensures EvaluateLeg(entry, exit, qty, leg).costs >= 0.0
  {
    var q := qty as real;
    var strike := Strike(entry, leg.offsetPct);
    assert strike >= 0.0 by {
      assert 1.0 + leg.offsetPct / 100.0 >= 0.0;
    }
    var premium := PremiumCash(entry, qty, leg.premiumPct);
    assert premium >= 0.0 by {
      assert entry * (leg.premiumPct / 100.0) >= 0.0;
    }
    assert strike * q >= 0.0;
  }

  /** The exercise fee is charged exactly when the leg finishes in the money
      (whenever the notional at strike is positive). */
  lemma ExerciseFeeIffInTheMoney(entry: real, exit: real, qty: nat, leg: LegConfig)
    requires Strike(entry, leg.offsetPct) * (qty as real) > 0.0
    ensures EvaluateLeg(entry, exit, qty, leg).costs > FeeRate * PremiumCash(entry, qty, leg.premiumPct)
            <==> Exercised(leg.kind, Strike(entry, leg.offsetPct), exit)
  {
  }

  /** Holder and writer of the same leg pay the same fees, and their results
      add up to minus both fee bills: premium and payoff cancel out. */
  lemma LongShortMirror(entry: real, exit: real, qty: nat, kind: OptionKind, offsetPct: real, premiumPct: real)
    ensures var long := EvaluateLeg(entry, exit, qty, LegConfig(kind, Long, offsetPct, premiumPct));
            var short := EvaluateLeg(entry, exit, qty, LegConfig(kind, Short, offsetPct, premiumPct));
            long.costs == short.costs && long.result + short.result == -2.0 * long.costs
  {
  }

  /** Put-call parity at expiry: a Call's payoff minus the Put's at the same
      strike is the exit price minus the strike, and at most one of the two
      is exercised. */
  lemma PutCallParity(strike: real, exit: real)
    ensures PayoffPerUnit(Call, strike, exit) - PayoffPerUnit(Put, strike, exit) == exit - strike
    ensures !(Exercised(Call, strike, exit) && Exercised(Put, strike, exit))
  {
  }

  /** An exercised leg: the holder nets the intrinsic value of the lot minus
      the premium, the entry fee and the exercise fee; the writer nets the
      premium minus the intrinsic value and the same two fees. */
  lemma InTheMoney(entry: real, exit: real, qty: nat, leg: LegConfig)
    requires Exercised(leg.kind, Strike(entry, leg.offsetPct), exit)
    ensures var strike := Strike(entry, leg.offsetPct);
            var premium := PremiumCash(entry, qty, leg.premiumPct);
            var value := Intrinsic(leg.kind, strike, exit) * (qty as real);
            var fees := FeeRate * premium + FeeRate * strike * (qty as real);
            var r := EvaluateLeg(entry, exit, qty, leg);
            && r.costs == fees
            && (leg.side == Long ==> r.result == value - premium - fees)
            && (leg.side == Short ==> r.result == premium - value - fees)
  {
  }

  /** A leg that expires out of the money: only the entry fee is paid, the
      holder loses the premium and that fee, the writer keeps the premium
      less that fee. */
  lemma OutOfTheMoney(entry: real, exit: real, qty: nat, leg: LegConfig)
    requires !Exercised(leg.kind, Strike(entry, leg.offsetPct), exit)
    ensures var premium := PremiumCash(entry, qty, leg.premiumPct);
            var r := EvaluateLeg(entry, exit, qty, leg);
            && r.costs == FeeRate * premium
            && (leg.side == Long ==> r.result == -(premium + FeeRate * premium))
            && (leg.side == Short ==> r.result == premium - FeeRate * premium)
  {
  }

  /** Entry 100, exit 110, lot 1000, at-the-money long Call with a 3% premium:
      fees 15 + 500 = 515 and a net result of 10000 - 3000 - 515 = 6485. */
  lemma WorkedLongCall()
    ensures EvaluateLeg(100.0, 110.0, 1000, LegConfig(Call, Long, 0.0, 3.0)) == LegResult(6485.0, 515.0)
  {
  }

  /** Entry 100, exit 90, lot 1000, at-the-money legs with a 3% premium: the
      long Put nets 10000 - 3000 - 515 = 6485, the short Put -7515, the short
      Call, which expires worthless, keeps 3000 - 15 = 2985. */
  lemma WorkedFallingMarket()
    ensures EvaluateLeg(100.0, 90.0, 1000, LegConfig(Put, Long, 0.0, 3.0)) == LegResult(6485.0, 515.0)
    ensures EvaluateLeg(100.0, 90.0, 1000, LegConfig(Put, Short, 0.0, 3.0)) == LegResult(-7515.0, 515.0)
    ensures EvaluateLeg(100.0, 90.0, 1000, LegConfig(Call, Short, 0.0, 3.0)) == LegResult(2985.0, 15.0)
  {
  }
}
