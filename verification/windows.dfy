/** The price table and the walk over it: the first row dated inside the
    simulation window, then back-to-back holding periods of `days` rows. */
module Windows {
  import opened Common

  /** One row of the price table: the day ordinal of its date and the close. */
  datatype Row = Row(day: int, price: real)

  /** Days strictly increase down the table (a cleaned, date-indexed download). */
  predicate Sorted(rows: seq<Row>)
  {
    forall i, j :: 0 <= i < j < |rows| ==> rows[i].day < rows[j].day
  }

  /** Index of the first row dated inside `[start, end]` at or after `from`. */
  function FirstInRangeFrom(rows: seq<Row>, start: int, end: int, from: nat): (r: Option<nat>)
    requires from <= |rows|
    ensures r.Some? ==> from <= r.value < |rows| && InRange(rows[r.value].day, start, end)
                        && forall j :: from <= j < r.value ==> !InRange(rows[j].day, start, end)
    ensures r.None? <==> forall j :: from <= j < |rows| ==> !InRange(rows[j].day, start, end)
    decreases |rows| - from
  {
    if from == |rows| then None
    else if InRange(rows[from].day, start, end) then Some(from)
    else FirstInRangeFrom(rows, start, end, from + 1)
  }

  /** `indices[0]`: the first row dated inside `[start, end]`, or nothing when
      no row is; the source then reports an invalid interval. */
  function FirstInRange(rows: seq<Row>, start: int, end: int): (r: Option<nat>)
    ensures r.Some? ==> r.value < |rows| && InRange(rows[r.value].day, start, end)
                        && forall j :: 0 <= j < r.value ==> !InRange(rows[j].day, start, end)
    ensures r.None? <==> forall j :: 0 <= j < |rows| ==> !InRange(rows[j].day, start, end)
  {
    FirstInRangeFrom(rows, start, end, 0)
  }

  /** The loop guard of the source: the exit row `curr + days` exists
      (`curr < len - days`) and the entry row is not dated after `end`. */
  predicate Opens(rows: seq<Row>, days: nat, end: int, curr: nat)
  {
    curr < |rows| - days && rows[curr].day <= end
  }

  /** The entry indices the loop visits from `curr`: `curr`, `curr + days`, ...
      each one opening a window, and the first index past them not. */
  function Entries(rows: seq<Row>, days: nat, end: int, curr: nat): seq<nat>
    requires days > 0
    decreases |rows| - curr
  {
    if Opens(rows, days, end, curr) then [curr] + Entries(rows, days, end, curr + days) else []
  }

  /** The walk from `curr` is exactly `curr, curr + days, curr + 2*days, ...`
      for as long as the loop guard holds: every visited index opens a window
      and the first index after them does not. */
  lemma {:induction false} EntriesShape(rows: seq<Row>, days: nat, end: int, curr: nat)
    requires days > 0
    ensures var e := Entries(rows, days, end, curr);
            && (forall k :: 0 <= k < |e| ==> e[k] == curr + k * days && Opens(rows, days, end, e[k]))
            && !Opens(rows, days, end, curr + |e| * days)
    decreases |rows| - curr
  {
    if Opens(rows, days, end, curr) {
      var rest := Entries(rows, days, end, curr + days);
      EntriesShape(rows, days, end, curr + days);
      var e := Entries(rows, days, end, curr);
      assert e == [curr] + rest;
      forall k | 0 <= k < |e|
        ensures e[k] == curr + k * days && Opens(rows, days, end, e[k])
      {
        if k > 0 {
          assert e[k] == rest[k - 1];
          MulStep(k, days);
        }
      }
      MulStep(|e|, days);
    }
  }

  lemma MulStep(k: int, d: int)
    ensures (k - 1) * d + d == k * d
  {
  }

  lemma MulNonNegative(a: int, b: int)
    requires a >= 0 && b >= 0
    ensures a * b >= 0
  {
  }

  /** Every exit index of the walk lies inside the table. */
  lemma ExitsInTable(rows: seq<Row>, days: nat, end: int, curr: nat)
    requires days > 0
    ensures forall k :: 0 <= k < |Entries(rows, days, end, curr)| ==> Entries(rows, days, end, curr)[k] + days < |rows|
  {
    EntriesShape(rows, days, end, curr);
  }

  /** On a sorted table walked from a row dated on or after `start`, every
      entry row is dated inside `[start, end]`. */
  lemma EntriesInsideWindow(rows: seq<Row>, days: nat, start: int, end: int, curr: nat)
    requires days > 0 && Sorted(rows)
    requires curr < |rows| && rows[curr].day >= start
    ensures var e := Entries(rows, days, end, curr);
            forall k :: 0 <= k < |e| ==> e[k] < |rows| && InRange(rows[e[k]].day, start, end)
  {
    var e := Entries(rows, days, end, curr);
    EntriesShape(rows, days, end, curr);
    forall k | 0 <= k < |e|
      ensures InRange(rows[e[k]].day, start, end)
    {
      assert e[k] >= curr;
      if e[k] > curr {
        assert rows[curr].day < rows[e[k]].day;
      }
    }
  }

  /** `q` is the quotient of `x` by `d` when `x` lies in `[q*d, (q+1)*d)`. */
  lemma DivUnique(x: int, d: int, q: int)
    requires d > 0 && q * d <= x < (q + 1) * d
    ensures x / d == q
  {
    var q' := x / d;
    assert q' * d <= x < q' * d + d;
    assert q * d <= x < q * d + d by { MulStep(q + 1, d); }
    if q' < q {
      MulNonNegative(q - q' - 1, d);
      MulStep(q - q', d);
      assert false;
    } else if q' > q {
      MulNonNegative(q' - q - 1, d);
      MulStep(q' - q, d);
      assert false;
    }
  }

  /** When no row is dated after `end`, the walk from `curr` visits exactly
      ceil((N - days - curr) / days) windows for a table of N rows, and none
      when `curr + days` is not a row of the table. */
  lemma EntriesCount(rows: seq<Row>, days: nat, end: int, curr: nat)
    requires days > 0
    requires forall i :: 0 <= i < |rows| ==> rows[i].day <= end
    ensures var n := |Entries(rows, days, end, curr)|;
            if curr < |rows| - days then n == (|rows| - days - curr + days - 1) / days else n == 0
  {
    var e := Entries(rows, days, end, curr);
    EntriesShape(rows, days, end, curr);
    var n := |e|;
    var m := |rows| - days - curr;
    if curr < |rows| - days {
      assert Opens(rows, days, end, curr);
      assert curr + (n - 1) * days < |rows| - days by {
        assert Opens(rows, days, end, e[n - 1]);
      }
      DivUnique(m + days - 1, days, n);
    }
  }
}
