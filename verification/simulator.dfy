/** `simular_comparativo`: the options strategy replayed over back-to-back
    holding periods with the loss-carrying income tax, against the initial
    capital left in the benchmark over the same window. */
module Simulator {
  import opened Common
  import opened Leg
  import opened Tax
  import opened Benchmark
  import opened Windows

  /** The simulation parameters: initial capital, lot size, holding period in
      rows (`dias`), the inclusive date window and the one or two legs. */
  datatype Params = Params(capital: real, qty: nat, days: nat, start: int, end: int, legs: seq<LegConfig>)

  /** One row of the trade log: exit date, after-tax result, balance after it. */
  datatype TradeRow = TradeRow(exitDay: int, net: real, balance: real)

  /** `saldo_opcoes`, `saldo_cdi` and the trade log. */
  datatype Report = Report(optionsBalance: real, benchmarkBalance: real, trades: seq<TradeRow>)

  /** The pair `(result, error)` the source returns. */
  datatype SimResult = InvalidRange(message: string) | Simulated(report: Report)

  const InvalidRangeMessage: string := "Intervalo inválido"

  /** Cursor state of the replay: the log so far, the loss carry and the balance. */
  datatype RunState = RunState(log: seq<TradeRow>, carry: real, balance: real)

  /** Gross result of one window: the leg results added up in leg order. */
  function LegsResult(entry: real, exit: real, qty: nat, legs: seq<LegConfig>): real
  {
    if |legs| == 0 then 0.0
    else EvaluateLeg(entry, exit, qty, legs[0]).result + LegsResult(entry, exit, qty, legs[1..])
  }

  /** A leg paired with its mirror image (same option, other side) adds
      nothing but twice its fees to the loss. */
  lemma MirroredPairLosesTheFees(entry: real, exit: real, qty: nat, kind: OptionKind, offsetPct: real, premiumPct: real)
    ensures var long := LegConfig(kind, Long, offsetPct, premiumPct);
            LegsResult(entry, exit, qty, [long, LegConfig(kind, Short, offsetPct, premiumPct)])
              == -2.0 * EvaluateLeg(entry, exit, qty, long).costs
  {
    var long := LegConfig(kind, Long, offsetPct, premiumPct);
    var short := LegConfig(kind, Short, offsetPct, premiumPct);
    assert [long, short][1..] == [short];
    assert [short][1..] == [];
    assert LegsResult(entry, exit, qty, [short]) == EvaluateLeg(entry, exit, qty, short).result;
    LongShortMirror(entry, exit, qty, kind, offsetPct, premiumPct);
  }

  /** Gross result of the window entered at row `curr` and left `days` rows later. */
  function WindowGross(rows: seq<Row>, p: Params, curr: nat): real
    requires curr + p.days < |rows|
  {
    LegsResult(rows[curr].price, rows[curr + p.days].price, p.qty, p.legs)
  }

  /** One visited window: its entry row, the date of its exit row and its
      gross result. */
  datatype Window = Window(entry: nat, exitDay: int, gross: real)

  /** The windows the loop visits from entry row `curr`, in order. */
  function Walk(rows: seq<Row>, p: Params, curr: nat): seq<Window>
    requires p.days > 0
    decreases |rows| - curr
  {
    if Opens(rows, p.days, p.end, curr) then
      [Window(curr, rows[curr + p.days].day, WindowGross(rows, p, curr))] + Walk(rows, p, curr + p.days)
    else []
  }

  /** The walk visits one window per entry index of the iterator, each
      exiting `days` rows after its entry, with that window's gross result. */
  lemma {:induction false} WalkFollowsEntries(rows: seq<Row>, p: Params, curr: nat)
    requires p.days > 0
    ensures var e := Entries(rows, p.days, p.end, curr);
            var ws := Walk(rows, p, curr);
            && |ws| == |e|
            && forall k :: 0 <= k < |ws| ==>
                 && ws[k].entry == e[k] && e[k] + p.days < |rows|
                 && ws[k].exitDay == rows[e[k] + p.days].day
                 && ws[k].gross == WindowGross(rows, p, e[k])
    decreases |rows| - curr
  {
    if Opens(rows, p.days, p.end, curr) {
      WalkFollowsEntries(rows, p, curr + p.days);
      var e' := Entries(rows, p.days, p.end, curr + p.days);
      var ws' := Walk(rows, p, curr + p.days);
      var e := Entries(rows, p.days, p.end, curr);
      var ws := Walk(rows, p, curr);
      assert e == [curr] + e';
      assert forall k :: 1 <= k < |ws| ==> ws[k] == ws'[k - 1] && e[k] == e'[k - 1];
    }
  }

  /** Gross results of a sequence of windows. */
  function GrossesOf(ws: seq<Window>): seq<real>
  {
    if |ws| == 0 then [] else [ws[0].gross] + GrossesOf(ws[1..])
  }

  /** Sum of the after-tax results of a trade log. */
  function SumNets(log: seq<TradeRow>): real
  {
    if |log| == 0 then 0.0 else log[0].net + SumNets(log[1..])
  }

  /** The body of the loop over a sequence of windows, from the given carry
      and balance: one logged trade per window, and the carry never negative. */
  function Book(carry: real, balance: real, ws: seq<Window>): (s: RunState)
    ensures |s.log| == |ws|
    ensures carry >= 0.0 ==> s.carry >= 0.0
    decreases |ws|
  {
    if |ws| == 0 then RunState([], carry, balance)
    else
      var t := TaxStep(carry, ws[0].gross);
      var net := NetOfTax(carry, ws[0].gross);
      var rest := Book(t.carry, balance + net, ws[1..]);
      RunState([TradeRow(ws[0].exitDay, net, balance + net)] + rest.log, rest.carry, rest.balance)
  }

  /** The run ends on the last logged balance, or on the starting one when
      nothing is logged. */
  lemma {:induction false} BookFinalBalance(carry: real, balance: real, ws: seq<Window>)
    ensures var s := Book(carry, balance, ws);
            s.balance == if |ws| == 0 then balance else s.log[|ws| - 1].balance
    decreases |ws|
  {
    if |ws| > 0 {
      var t := TaxStep(carry, ws[0].gross);
      BookFinalBalance(t.carry, balance + NetOfTax(carry, ws[0].gross), ws[1..]);
    }
  }

  /** Each logged trade carries the exit date of its window. */
  lemma {:induction false} BookExitDays(carry: real, balance: real, ws: seq<Window>)
    ensures var log := Book(carry, balance, ws).log;
            forall k :: 0 <= k < |ws| ==> log[k].exitDay == ws[k].exitDay
    decreases |ws|
  {
    if |ws| > 0 {
      var t := TaxStep(carry, ws[0].gross);
      BookExitDays(t.carry, balance + NetOfTax(carry, ws[0].gross), ws[1..]);
    }
  }

  /** Every logged balance is the starting balance plus the after-tax results
      logged so far, and so is the final balance. */
  lemma {:induction false} BookBalances(carry: real, balance: real, ws: seq<Window>)
    ensures var log := Book(carry, balance, ws).log;
            forall k :: 0 <= k < |log| ==> log[k].balance == balance + SumNets(log[..k + 1])
    ensures var s := Book(carry, balance, ws);
            s.balance == balance + SumNets(s.log)
    decreases |ws|
  {
    if |ws| > 0 {
      var s := Book(carry, balance, ws);
      var t := TaxStep(carry, ws[0].gross);
      var net := NetOfTax(carry, ws[0].gross);
      var rest := Book(t.carry, balance + net, ws[1..]);
      BookBalances(t.carry, balance + net, ws[1..]);
      assert s.log[1..] == rest.log;
      forall k | 0 <= k < |s.log|
        ensures s.log[k].balance == balance + SumNets(s.log[..k + 1])
      {
        if k == 0 {
          assert s.log[..1][1..] == [];
        } else {
          assert s.log[..k + 1][1..] == rest.log[..k];
        }
      }
    }
  }

  /** The loop body is the tax ledger run over the windows' gross results: it
      ends with the ledger's carry, and its balance grows by the total gross
      result minus the ledger's total tax. */
  lemma {:induction false} BookIsLedger(carry: real, balance: real, ws: seq<Window>)
    ensures var s := Book(carry, balance, ws);
            var l := Ledger(carry, GrossesOf(ws));
            s.carry == l.carry && s.balance == balance + Sum(GrossesOf(ws)) - l.tax
    decreases |ws|
  {
    if |ws| > 0 {
      var t := TaxStep(carry, ws[0].gross);
      var gs := GrossesOf(ws);
      assert gs[1..] == GrossesOf(ws[1..]);
      BookIsLedger(t.carry, balance + NetOfTax(carry, ws[0].gross), ws[1..]);
    }
  }

  /** Trade by trade, the loop is the tax ledger: the gross results are the
      windows' in order, and each logged after-tax result is that window's
      result taxed against the loss the ledger carries after the trades before
      it, a carry that is never negative when the run starts from none. */
  lemma {:induction false} BookFollowsLedger(carry: real, balance: real, ws: seq<Window>)
    ensures var log := Book(carry, balance, ws).log;
            var gs := GrossesOf(ws);
            && |gs| == |ws|
            && forall k :: 0 <= k < |ws| ==>
                 && gs[k] == ws[k].gross
                 && log[k].net == NetOfTax(Ledger(carry, gs[..k]).carry, ws[k].gross)
                 && (carry >= 0.0 ==> Ledger(carry, gs[..k]).carry >= 0.0)
    decreases |ws|
  {
    if |ws| > 0 {
      var t := TaxStep(carry, ws[0].gross);
      var log := Book(carry, balance, ws).log;
      var rest := Book(t.carry, balance + NetOfTax(carry, ws[0].gross), ws[1..]).log;
      var gs := GrossesOf(ws);
      var gs' := GrossesOf(ws[1..]);
      BookFollowsLedger(t.carry, balance + NetOfTax(carry, ws[0].gross), ws[1..]);
      assert gs == [ws[0].gross] + gs';
      assert log == [log[0]] + rest;
      forall k | 0 <= k < |ws|
        ensures && gs[k] == ws[k].gross
                && log[k].net == NetOfTax(Ledger(carry, gs[..k]).carry, ws[k].gross)
                && (carry >= 0.0 ==> Ledger(carry, gs[..k]).carry >= 0.0)
      {
        if k == 0 {
          assert gs[..0] == [];
        } else {
          assert gs[..k][1..] == gs'[..k - 1];
          assert Ledger(carry, gs[..k]).carry == Ledger(t.carry, gs'[..k - 1]).carry;
          assert log[k] == rest[k - 1];
          assert ws[k] == ws[1..][k - 1];
        }
      }
    }
  }

  /** From a non-negative carry, the balance ends at the start plus 85% of the
      total gross result minus 15% of the growth of the carry; it lies between
      the untaxed total and the total with every gain taxed in full. */
  lemma BookAfterTax(carry: real, balance: real, ws: seq<Window>)
    requires carry >= 0.0
    ensures var s := Book(carry, balance, ws);
            var gs := GrossesOf(ws);
            && s.balance == balance + (1.0 - TaxRate) * Sum(gs) - TaxRate * (s.carry - carry)
            && balance + Sum(gs) - TaxRate * SumGains(gs) <= s.balance <= balance + Sum(gs)
  {
    BookIsLedger(carry, balance, ws);
    LedgerConservation(carry, GrossesOf(ws));
    LedgerTaxBounds(carry, GrossesOf(ws));
  }

  /** From a non-negative carry, each logged after-tax result is at most the
      gross result of its window, equal to it when the window did not gain,
      and at least 85% of it when the window gained. */
  lemma {:induction false} BookNetsVersusGross(carry: real, balance: real, ws: seq<Window>)
    requires carry >= 0.0
    ensures var log := Book(carry, balance, ws).log;
            forall k :: 0 <= k < |ws| ==>
              && log[k].net <= ws[k].gross
              && (ws[k].gross <= 0.0 ==> log[k].net == ws[k].gross)
              && (ws[k].gross > 0.0 ==> log[k].net >= (1.0 - TaxRate) * ws[k].gross)
    decreases |ws|
  {
    if |ws| > 0 {
      var t := TaxStep(carry, ws[0].gross);
      BookNetsVersusGross(t.carry, balance + NetOfTax(carry, ws[0].gross), ws[1..]);
    }
  }

  /** `simular_comparativo`. The interval is invalid exactly when no price row
      is dated inside it; otherwise the benchmark balance is the capital
      compounded over the window and the final options balance is the last
      logged balance, or the capital when no trade was made. */
  function Simulate(rows: seq<Row>, cdi: seq<Quote>, p: Params): (r: SimResult)
    requires p.days > 0
    ensures r.InvalidRange? <==> forall i :: 0 <= i < |rows| ==> !InRange(rows[i].day, p.start, p.end)
    ensures r.InvalidRange? ==> r.message == InvalidRangeMessage
    ensures r.Simulated? ==> r.report.benchmarkBalance == BenchmarkBalance(p.capital, cdi, p.start, p.end)
    ensures r.Simulated? ==>
              var ts := r.report.trades;
              r.report.optionsBalance == (if |ts| == 0 then p.capital else ts[|ts| - 1].balance)
  {
    match FirstInRange(rows, p.start, p.end)
    case None => InvalidRange(InvalidRangeMessage)
    case Some(first) =>
      var ws := Walk(rows, p, first);
      BookFinalBalance(0.0, p.capital, ws);
      var run := Book(0.0, p.capital, ws);
      Simulated(Report(run.balance, BenchmarkBalance(p.capital, cdi, p.start, p.end), run.log))
  }

  /** In a valid run every logged balance is the capital plus the after-tax
      results logged so far, and so is the final options balance. */
  lemma SimulateBalances(rows: seq<Row>, cdi: seq<Quote>, p: Params)
    requires p.days > 0
    requires Simulate(rows, cdi, p).Simulated?
    ensures var ts := Simulate(rows, cdi, p).report.trades;
            && Simulate(rows, cdi, p).report.optionsBalance == p.capital + SumNets(ts)
            && forall k :: 0 <= k < |ts| ==> ts[k].balance == p.capital + SumNets(ts[..k + 1])
  {
    BookBalances(0.0, p.capital, Walk(rows, p, FirstInRange(rows, p.start, p.end).value));
  }

  /** The trades logged over the walk from an entry row dated on or after
      `start` are its windows: one per entry index, each exiting `days` rows
      after its entry, every exit row inside the table, and, on a sorted
      table, every entry dated inside the interval. */
  lemma WalkTrades(rows: seq<Row>, p: Params, first: nat, capital: real)
    requires p.days > 0 && Sorted(rows)
    requires first < |rows| && rows[first].day >= p.start
    ensures var e := Entries(rows, p.days, p.end, first);
            var ts := Book(0.0, capital, Walk(rows, p, first)).log;
            && |ts| == |e|
            && forall k :: 0 <= k < |e| ==>
                 && e[k] + p.days < |rows|
                 && ts[k].exitDay == rows[e[k] + p.days].day
                 && InRange(rows[e[k]].day, p.start, p.end)
  {
    EntriesInsideWindow(rows, p.days, p.start, p.end, first);
    WalkFollowsEntries(rows, p, first);
    BookExitDays(0.0, capital, Walk(rows, p, first));
  }

  /** The trades of a valid run, which starts at the first row dated in the
      interval, are the windows of the walk from there (see `WalkTrades`). */
  lemma SimulateWindows(rows: seq<Row>, cdi: seq<Quote>, p: Params, first: nat)
    requires p.days > 0 && Sorted(rows)
    requires FirstInRange(rows, p.start, p.end) == Some(first)
    ensures Simulate(rows, cdi, p).Simulated?
    ensures var e := Entries(rows, p.days, p.end, first);
            var ts := Simulate(rows, cdi, p).report.trades;
            && |ts| == |e|
            && forall k :: 0 <= k < |e| ==>
                 && e[k] + p.days < |rows|
                 && ts[k].exitDay == rows[e[k] + p.days].day
                 && InRange(rows[e[k]].day, p.start, p.end)
  {
    WalkTrades(rows, p, first, p.capital);
  }

  /** The final options balance of a valid run is the capital plus 85% of the
      total gross result of its windows minus 15% of the losses still carried
      at the end; it lies between the total with every gain taxed in full and
      the untaxed total. */
  lemma SimulateAfterTax(rows: seq<Row>, cdi: seq<Quote>, p: Params)
    requires p.days > 0
    requires Simulate(rows, cdi, p).Simulated?
    ensures var gs := GrossesOf(Walk(rows, p, FirstInRange(rows, p.start, p.end).value));
            var carried := Ledger(0.0, gs).carry;
            var b := Simulate(rows, cdi, p).report.optionsBalance;
            && carried >= 0.0
            && b == p.capital + (1.0 - TaxRate) * Sum(gs) - TaxRate * carried
            && p.capital + Sum(gs) - TaxRate * SumGains(gs) <= b <= p.capital + Sum(gs)
  {
    var ws := Walk(rows, p, FirstInRange(rows, p.start, p.end).value);
    BookIsLedger(0.0, p.capital, ws);
    BookAfterTax(0.0, p.capital, ws);
    LedgerConservation(0.0, GrossesOf(ws));
  }

  /** Each logged after-tax result of a valid run is at most the gross result
      of its window, equal to it when the window did not gain, and at least
      85% of it when the window gained. */
  lemma SimulateNetsVersusGross(rows: seq<Row>, cdi: seq<Quote>, p: Params)
    requires p.days > 0
    requires Simulate(rows, cdi, p).Simulated?
    ensures var ws := Walk(rows, p, FirstInRange(rows, p.start, p.end).value);
            var ts := Simulate(rows, cdi, p).report.trades;
            && |ts| == |ws|
            && forall k :: 0 <= k < |ts| ==>
                 && ts[k].net <= ws[k].gross
                 && (ws[k].gross <= 0.0 ==> ts[k].net == ws[k].gross)
                 && (ws[k].gross > 0.0 ==> ts[k].net >= (1.0 - TaxRate) * ws[k].gross)
  {
    BookNetsVersusGross(0.0, p.capital, Walk(rows, p, FirstInRange(rows, p.start, p.end).value));
  }

  /** Each trade of a valid run logs its window's gross result taxed against
      the loss carried after the trades before it, which is never negative. */
  lemma SimulateFollowsLedger(rows: seq<Row>, cdi: seq<Quote>, p: Params, first: nat)
    requires p.days > 0
    requires FirstInRange(rows, p.start, p.end) == Some(first)
    ensures Simulate(rows, cdi, p).Simulated?
    ensures var gs := GrossesOf(Walk(rows, p, first));
            var ts := Simulate(rows, cdi, p).report.trades;
            && |ts| == |gs|
            && forall k :: 0 <= k < |ts| ==>
                 && Ledger(0.0, gs[..k]).carry >= 0.0
                 && ts[k].net == NetOfTax(Ledger(0.0, gs[..k]).carry, gs[k])
  {
    BookFollowsLedger(0.0, p.capital, Walk(rows, p, first));
  }

  /** Gross result of the window entered at `curr`, legs summed in order as
      the inner loop of the source does. */
  method SumLegs(rows: seq<Row>, p: Params, curr: nat) returns (gross: real)
    requires curr + p.days < |rows|
    ensures gross == WindowGross(rows, p, curr)
  {
    var entry := rows[curr].price;
    var exit := rows[curr + p.days].price;
    gross := 0.0;
    var j := 0;
    while j < |p.legs|
      invariant 0 <= j <= |p.legs|
      invariant gross + LegsResult(entry, exit, p.qty, p.legs[j..]) == LegsResult(entry, exit, p.qty, p.legs)
    {
      assert p.legs[j..][1..] == p.legs[j + 1..];
      gross := gross + EvaluateLeg(entry, exit, p.qty, p.legs[j]).result;
      j := j + 1;
    }
  }

  /** One turn of the source's loop at an opening entry row: sum the legs,
      tax the result against the carried loss and log the trade. The run over
      the walk from here is this trade followed by the run over the rest. */
  method Trade(rows: seq<Row>, p: Params, curr: nat, carry: real, balance: real) returns (row: TradeRow, carry': real)
    requires p.days > 0 && Opens(rows, p.days, p.end, curr)
    ensures var s := Book(carry, balance, Walk(rows, p, curr));
            var rest := Book(carry', row.balance, Walk(rows, p, curr + p.days));
            s.log == [row] + rest.log && s.balance == rest.balance
  {
    var gross := SumLegs(rows, p, curr);
    var t := TaxStep(carry, gross);
    var net := NetOfTax(carry, gross);
    row := TradeRow(rows[curr + p.days].day, net, balance + net);
    carry' := t.carry;
    assert Walk(rows, p, curr)[1..] == Walk(rows, p, curr + p.days);
  }

  /** The source's `while` loop from the first row in the interval: windows
      of `days` rows while the exit row exists and the entry is not past the
      end date, summing the legs, taxing the result against the carried loss
      and logging the balance. It logs exactly the trades of the ledger run
      over the walk, and ends on that run's balance. */
  method TradeLoop(rows: seq<Row>, p: Params, first: nat) returns (trades: seq<TradeRow>, balance: real)
    requires p.days > 0
    ensures var whole := Book(0.0, p.capital, Walk(rows, p, first));
            trades == whole.log && balance == whole.balance
  {
    balance := p.capital;
    trades := [];
    var carry := 0.0;
    var curr := first;
    var limit := |rows| - p.days;
    ghost var whole := Book(0.0, p.capital, Walk(rows, p, curr));
    ghost var pending := whole;

    while curr < limit
      invariant pending == Book(carry, balance, Walk(rows, p, curr))
      invariant trades + pending.log == whole.log
      invariant pending.balance == whole.balance
      decreases |rows| - curr
    {
      if rows[curr].day > p.end {
        break;
      }
      var row, carry' := Trade(rows, p, curr, carry, balance);
      pending := Book(carry', row.balance, Walk(rows, p, curr + p.days));
      assert (trades + [row]) + pending.log == trades + ([row] + pending.log);
      carry, balance, trades := carry', row.balance, trades + [row];
      curr := curr + p.days;
    }
  }

  /** The source's function end to end: the benchmark balance, the first row
      in the interval or the invalid-interval message, then the trade loop. */
  method SimulateLoop(rows: seq<Row>, cdi: seq<Quote>, p: Params) returns (r: SimResult)
    requires p.days > 0
    ensures r == Simulate(rows, cdi, p)
  {
    var factor := 1.0;
    if |cdi| > 0 {
      factor := Product(WindowFactors(cdi, p.start, p.end));
    }
    var cdiBalance := p.capital * factor;
    var firstRow := FirstInRange(rows, p.start, p.end);
    if firstRow.None? {
      return InvalidRange(InvalidRangeMessage);
    }
    var trades, balance := TradeLoop(rows, p, firstRow.value);
    r := Simulated(Report(balance, cdiBalance, trades));
  }
}
