/** The risk-free benchmark (daily CDI): one growth factor per day,
    compounded over the simulation window. */
module Benchmark {
  import opened Common

  /** One benchmark row: a day ordinal and that day's factor `1 + rate/100`. */
  type Quote = (int, real)

  /** The factors of the rows dated inside `[start, end]`, in table order
      (the boolean mask of the source). */
  function WindowFactors(cdi: seq<Quote>, start: int, end: int): (fs: seq<real>)
    ensures |fs| <= |cdi|
    ensures |fs| == 0 <==> forall i :: 0 <= i < |cdi| ==> !InRange(cdi[i].0, start, end)
  {
    if |cdi| == 0 then []
    else
      var rest := WindowFactors(cdi[1..], start, end);
      assert forall i :: 1 <= i < |cdi| ==> cdi[i] == cdi[1..][i - 1];
      if InRange(cdi[0].0, start, end) then [cdi[0].1] + rest else rest
  }

  /** The window keeps exactly the factors of the rows dated inside it. */
  lemma {:induction false} WindowFactorsMembers(cdi: seq<Quote>, start: int, end: int)
    ensures forall i :: 0 <= i < |cdi| && InRange(cdi[i].0, start, end) ==> cdi[i].1 in WindowFactors(cdi, start, end)
    ensures forall f :: f in WindowFactors(cdi, start, end)
              ==> exists i :: 0 <= i < |cdi| && InRange(cdi[i].0, start, end) && cdi[i].1 == f
  {
    if |cdi| > 0 {
      WindowFactorsMembers(cdi[1..], start, end);
      assert forall i :: 1 <= i < |cdi| ==> cdi[i] == cdi[1..][i - 1];
    }
  }

  /** Product of a sequence of factors; the empty product is 1. */
  function Product(fs: seq<real>): real
  {
    if |fs| == 0 then 1.0 else fs[0] * Product(fs[1..])
  }

  /** Compounded benchmark factor over `[start, end]`: 1 for an empty table
      (the download failed), otherwise the product of the matching factors. */
  function AccruedFactor(cdi: seq<Quote>, start: int, end: int): real
  {
    if |cdi| == 0 then 1.0 else Product(WindowFactors(cdi, start, end))
  }

  /** `saldo_cdi`: the initial capital grown by the benchmark over the window.
      Positive daily factors keep a positive capital positive, and factors of
      at least 1 never let it shrink. */
  function BenchmarkBalance(capital: real, cdi: seq<Quote>, start: int, end: int): (b: real)
    ensures (forall i :: 0 <= i < |cdi| ==> !InRange(cdi[i].0, start, end)) ==> b == capital
    ensures capital > 0.0 && (forall i :: 0 <= i < |cdi| ==> cdi[i].1 > 0.0) ==> b > 0.0
    ensures capital >= 0.0 && (forall i :: 0 <= i < |cdi| ==> cdi[i].1 >= 1.0) ==> b >= capital
  {
    WindowFactorsMembers(cdi, start, end);
    ProductPositive(WindowFactors(cdi, start, end));
    ProductAtLeastOne(WindowFactors(cdi, start, end));
    ScaleAtLeast(capital, AccruedFactor(cdi, start, end));
    capital * AccruedFactor(cdi, start, end)
  }

  /** The empty-table branch is only a shortcut: the factor is always the
      product over the window. */
  lemma AccruedFactorIsWindowProduct(cdi: seq<Quote>, start: int, end: int)
    ensures AccruedFactor(cdi, start, end) == Product(WindowFactors(cdi, start, end))
  {
  }

  lemma {:induction false} ProductPositive(fs: seq<real>)
    ensures (forall f :: f in fs ==> f > 0.0) ==> Product(fs) > 0.0
  {
    if |fs| > 0 && forall f :: f in fs ==> f > 0.0 {
      assert forall f :: f in fs[1..] ==> f in fs;
      ProductPositive(fs[1..]);
      assert fs[0] in fs;
    }
  }

  lemma {:induction false} ProductAtLeastOne(fs: seq<real>)
    ensures (forall f :: f in fs ==> f >= 1.0) ==> Product(fs) >= 1.0
  {
    if |fs| > 0 && forall f :: f in fs ==> f >= 1.0 {
      assert forall f :: f in fs[1..] ==> f in fs;
      ProductAtLeastOne(fs[1..]);
      assert fs[0] in fs;
      var p := Product(fs[1..]);
      assert (fs[0] - 1.0) * p >= 0.0;
    }
  }

  /** Compounding is multiplicative: the factor of two tables placed end to
      end is the product of their factors. */
  lemma {:induction false} ProductAppend(a: seq<real>, b: seq<real>)
    ensures Product(a + b) == Product(a) * Product(b)
  {
    if |a| > 0 {
      assert (a + b)[1..] == a[1..] + b;
      ProductAppend(a[1..], b);
    } else {
      assert a + b == b;
    }
  }

  lemma {:induction false} WindowFactorsAppend(a: seq<Quote>, b: seq<Quote>, start: int, end: int)
    ensures WindowFactors(a + b, start, end) == WindowFactors(a, start, end) + WindowFactors(b, start, end)
  {
    if |a| > 0 {
      assert (a + b)[1..] == a[1..] + b;
      WindowFactorsAppend(a[1..], b, start, end);
    } else {
      assert a + b == b;
    }
  }

  /** Splitting the benchmark table anywhere splits the accrued factor into
      the product of the two parts' factors. */
  lemma AccruedFactorSplit(a: seq<Quote>, b: seq<Quote>, start: int, end: int)
    ensures Product(WindowFactors(a + b, start, end))
            == Product(WindowFactors(a, start, end)) * Product(WindowFactors(b, start, end))
  {
    WindowFactorsAppend(a, b, start, end);
    ProductAppend(WindowFactors(a, start, end), WindowFactors(b, start, end));
  }

  /** Appending one CDI row to the table appends its factor to the window
      exactly when the row is dated inside it: every matching day counts
      once, repeated rates included. */
  lemma WindowFactorsSnoc(cdi: seq<Quote>, q: Quote, start: int, end: int)
    ensures WindowFactors(cdi + [q], start, end)
            == WindowFactors(cdi, start, end) + (if InRange(q.0, start, end) then [q.1] else [])
  {
    WindowFactorsAppend(cdi, [q], start, end);
    assert [q][1..] == [];
  }

  /** Appending one CDI row multiplies the compounded factor by that day's
      factor when the row is dated inside the window, and leaves it alone
      otherwise. */
  lemma AccruedFactorSnoc(cdi: seq<Quote>, q: Quote, start: int, end: int)
    ensures Product(WindowFactors(cdi + [q], start, end))
            == Product(WindowFactors(cdi, start, end)) * (if InRange(q.0, start, end) then q.1 else 1.0)
  {
    WindowFactorsSnoc(cdi, q, start, end);
    var extra := if InRange(q.0, start, end) then [q.1] else [];
    ProductAppend(WindowFactors(cdi, start, end), extra);
    if InRange(q.0, start, end) {
      assert [q.1][1..] == [];
    }
  }

  /** Both window ends are included, and factors compound: two matching days
      at 1.001 and 1.002 give 1.003002, not their sum; a day outside the window
      does not count. */
  lemma WorkedCompounding()
    ensures AccruedFactor([(1, 1.001), (2, 1.002), (3, 1.5)], 1, 2) == 1.003002
  {
    var cdi: seq<Quote> := [(1, 1.001), (2, 1.002), (3, 1.5)];
    assert cdi[1..] == [(2, 1.002), (3, 1.5)];
    assert cdi[1..][1..] == [(3, 1.5)];
    assert WindowFactors(cdi, 1, 2) == [1.001, 1.002];
    assert [1.001, 1.002][1..] == [1.002];
  }
}
