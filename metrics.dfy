/**
  Sums over the filtered table and the ratios built from them: the KPI
  tiles (app.py lines 54-58), whose ROAS and ROI fall back to 0 when the
  payout total is 0, and the unguarded floating-point ratio the leaderboard
  computes per influencer (line 67).
*/
module Metrics {
  import opened Wrappers
  import opened Tables

  /** Orders, revenue and payout summed over some rows. */
  datatype Totals = Totals(orders: int, revenue: real, payout: real)

  const Zero := Totals(0, 0.0, 0.0)

  function Plus(a: Totals, b: Totals): Totals
  {
    Totals(a.orders + b.orders, a.revenue + b.revenue, a.payout + b.payout)
  }

  /** The `total_payout` cell of a joined row; null (no payout row) is summed as 0. */
  function PayoutOf(r: JoinedRow): real
  {
    if r.pay.Some? then r.pay.value.totalPayout else 0.0
  }

  function RowTotals(r: JoinedRow): Totals
  {
    Totals(r.track.orders, r.track.revenue, PayoutOf(r))
  }

  /** Column sums, `df[['orders', 'revenue', 'total_payout']].sum()`. */
  function Sum(rows: seq<JoinedRow>): Totals
  {
    if rows == [] then Zero else Plus(RowTotals(rows[0]), Sum(rows[1..]))
  }

  lemma PlusAssoc(a: Totals, b: Totals, c: Totals)
    ensures Plus(a, Plus(b, c)) == Plus(Plus(a, b), c)
  {
  }

  lemma PlusSwap(a: Totals, b: Totals, c: Totals)
    ensures Plus(a, Plus(b, c)) == Plus(b, Plus(a, c))
  {
  }

  lemma PlusZero(t: Totals)
    ensures Plus(Zero, t) == t && Plus(t, Zero) == t
  {
  }

  /** The sum of a row followed by more rows. */
  lemma SumCons(r: JoinedRow, rest: seq<JoinedRow>)
    ensures Sum([r] + rest) == Plus(RowTotals(r), Sum(rest))
  {
    assert ([r] + rest)[0] == r && ([r] + rest)[1..] == rest;
  }

  lemma SumFirst(rows: seq<JoinedRow>)
    requires rows != []
    ensures Sum(rows) == Plus(RowTotals(rows[0]), Sum(rows[1..]))
  {
  }

  /** Sums split over a concatenation. */
  lemma {:induction false} SumAppend(a: seq<JoinedRow>, b: seq<JoinedRow>)
    ensures Sum(a + b) == Plus(Sum(a), Sum(b))
  {
    if a == [] {
      assert a + b == b;
      assert Sum(a) == Zero;
    } else {
      assert a + b == [a[0]] + (a[1..] + b);
      assert a == [a[0]] + a[1..];
      SumCons(a[0], a[1..] + b);
      SumCons(a[0], a[1..]);
      SumAppend(a[1..], b);
      PlusAssoc(RowTotals(a[0]), Sum(a[1..]), Sum(b));
    }
  }

  /**
    Every joined row carries its payout row's whole `total_payout`, so an
    influencer with several tracking rows has that payout summed once per
    row: n rows sharing one payout row sum to n times its amount.
  */
  lemma {:induction false} PayoutRepeated(rows: seq<JoinedRow>, p: Payout)
    requires forall r :: r in rows ==> r.pay == Some(p)
    ensures Sum(rows).payout == |rows| as real * p.totalPayout
  {
    if rows != [] {
      assert rows[0] in rows;
      PayoutRepeated(rows[1..], p);
      SumFirst(rows);
    }
  }

  /** Rows with non-negative revenue sum to a non-negative revenue. */
  lemma {:induction false} SumRevenueNonNegative(rows: seq<JoinedRow>)
    requires forall r :: r in rows ==> r.track.revenue >= 0.0
    ensures Sum(rows).revenue >= 0.0
  {
    if rows != [] {
      assert rows[0] in rows;
      assert forall r :: r in rows[1..] ==> r in rows;
      SumRevenueNonNegative(rows[1..]);
    }
  }

  /** The KPI tiles: the three totals and the guarded ROAS and ROI. */
  datatype Kpis = Kpis(totals: Totals, roas: real, roi: real)

  /**
    `roas = total_revenue / total_payout if total_payout else 0` and
    `roi = (total_revenue - total_payout) / total_payout if total_payout else 0`:
    both are 0 when the payout total is 0; otherwise ROAS is the factor that
    turns payout into revenue and ROI is ROAS less one.
  */
  function ComputeKpis(rows: seq<JoinedRow>): (k: Kpis)
    ensures k.totals == Sum(rows)
    ensures k.totals.payout == 0.0 ==> k.roas == 0.0 && k.roi == 0.0
    ensures k.totals.payout != 0.0 ==>
      k.roas * k.totals.payout == k.totals.revenue && k.roi == k.roas - 1.0
  {
    var t := Sum(rows);
    if t.payout != 0.0 then
      var roas := t.revenue / t.payout;
      var roi := (t.revenue - t.payout) / t.payout;
      assert t.payout / t.payout == 1.0;
      assert roi == roas - t.payout / t.payout;
      Kpis(t, roas, roi)
    else
      Kpis(t, 0.0, 0.0)
  }

  /** An empty table shows 0 orders, 0 revenue, 0 payout, and ROAS = ROI = 0. */
  lemma EmptyKpis()
    ensures ComputeKpis([]) == Kpis(Zero, 0.0, 0.0)
  {
  }

  /**
    An IEEE-754 double as the per-influencer ROAS column holds it: a finite
    value, an infinity, or NaN.
  */
  datatype Ratio = Finite(value: real) | PosInf | NegInf | NaN

  /**
    Floating-point division with the payout as divisor: a finite quotient
    for a non-zero divisor; for a zero divisor +inf or -inf by the sign of
    the dividend, and NaN for 0/0.
  */
  function Divide(num: real, den: real): (q: Ratio)
    ensures q.Finite? <==> den != 0.0
    ensures q.Finite? ==> q.value * den == num
    ensures q == PosInf <==> den == 0.0 && num > 0.0
    ensures q == NegInf <==> den == 0.0 && num < 0.0
  {
    if den != 0.0 then Finite(num / den)
    else if num > 0.0 then PosInf
    else if num < 0.0 then NegInf
    else NaN
  }

  /** The comparison `ROAS < bound`: false on NaN and on +inf, true on -inf. */
  predicate Below(x: Ratio, bound: real)
  {
    match x
    case Finite(v) => v < bound
    case NegInf => true
    case PosInf => false
    case NaN => false
  }

  /**
    When `revenue / payout < 1` holds: with a positive payout exactly when
    revenue is below payout, with a negative payout exactly when revenue is
    above it, and with a zero payout only when revenue is negative (-inf).
  */
  lemma BelowOne(revenue: real, payout: real)
    ensures Below(Divide(revenue, payout), 1.0) <==>
      || (payout > 0.0 && revenue < payout)
      || (payout < 0.0 && revenue > payout)
      || (payout == 0.0 && revenue < 0.0)
  {
    if payout != 0.0 {
      var q := revenue / payout;
      assert q * payout == revenue;
      assert revenue - payout == (q - 1.0) * payout;
      if payout > 0.0 {
        if q < 1.0 {
          assert (1.0 - q) * payout > 0.0;
        } else if q > 1.0 {
          assert (q - 1.0) * payout > 0.0;
        } else {
          assert revenue == payout;
        }
      } else {
        if q < 1.0 {
          assert (1.0 - q) * -payout > 0.0;
        } else if q > 1.0 {
          assert (q - 1.0) * -payout > 0.0;
        } else {
          assert revenue == payout;
        }
      }
    }
  }
}
