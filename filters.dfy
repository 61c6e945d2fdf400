/**
  The sidebar filters (app.py lines 44-51). Each of the four dimensions has
  a multi-selection; an empty selection leaves that dimension unrestricted,
  a non-empty one keeps the rows whose cell is one of the selected values.
  `isin` on a null cell is false, so a non-empty selection also drops the
  rows where that cell is null.
*/
module Filters {
  import opened Wrappers
  import opened Tables
  import opened Seqs

  datatype Selection = Selection(
    platforms: set<string>,
    products: set<string>,
    categories: set<string>,
    genders: set<string>)

  /** Nothing selected anywhere: the dashboard's state before any choice. */
  const NoSelection := Selection({}, {}, {}, {})

  datatype Dim = Platform | Product | Category | Gender

  /** The order in which the script applies the filters. */
  const Dims: seq<Dim> := [Platform, Product, Category, Gender]

  function Chosen(sel: Selection, d: Dim): set<string>
  {
    match d
    case Platform => sel.platforms
    case Product => sel.products
    case Category => sel.categories
    case Gender => sel.genders
  }

  /**
    The cell a filter looks at. Platform and product come from the tracking
    row; category and gender from the joined influencer row, null when there
    is none.
  */
  function Field(r: JoinedRow, d: Dim): Option<string>
  {
    match d
    case Platform => r.track.platform
    case Product => r.track.product
    case Category => if r.inf.Some? then r.inf.value.category else None
    case Gender => if r.inf.Some? then r.inf.value.gender else None
  }

  /** `cell.isin(values)`: false on a null cell. */
  predicate IsIn(f: Option<string>, values: set<string>)
  {
    f.Some? && f.value in values
  }

  /** One dimension's verdict: unrestricted when nothing is chosen. */
  predicate Admits(values: set<string>, f: Option<string>)
  {
    values == {} || IsIn(f, values)
  }

  /** The verdicts of the dimensions `ds`, all of which must hold. */
  predicate AdmitsAll(sel: Selection, ds: seq<Dim>, r: JoinedRow)
  {
    forall k :: 0 <= k < |ds| ==> Admits(Chosen(sel, ds[k]), Field(r, ds[k]))
  }

  /** A row survives the filters when every dimension admits it. */
  predicate Accepts(sel: Selection, r: JoinedRow)
  {
    AdmitsAll(sel, Dims, r)
  }

  /**
    The rows admitted on dimensions `ds`, in table order: exactly the
    admitted rows, as an order-preserving subsequence of `rows`
    (`NarrowCounts`: each as often as the table holds it).
  */
  function Narrow(rows: seq<JoinedRow>, sel: Selection, ds: seq<Dim>): (out: seq<JoinedRow>)
    ensures forall r :: r in out <==> r in rows && AdmitsAll(sel, ds, r)
    ensures Subseq(out, rows)
  {
    if rows == [] then []
    else
      var rest := Narrow(rows[1..], sel, ds);
      assert forall r :: r in rows <==> r == rows[0] || r in rows[1..];
      assert rows == [rows[0]] + rows[1..];
      if AdmitsAll(sel, ds, rows[0]) then
        SubseqKeep(rows[0], rest, rows[1..]);
        [rows[0]] + rest
      else
        SubseqDrop(rows[0], rest, rows[1..]);
        rest
  }

  /** Every admitted row is kept as often as the table holds it, and no other row is kept. */
  lemma {:induction false} NarrowCounts(rows: seq<JoinedRow>, sel: Selection, ds: seq<Dim>)
    ensures forall r :: multiset(Narrow(rows, sel, ds))[r] == if AdmitsAll(sel, ds, r) then multiset(rows)[r] else 0
  {
    if rows != [] {
      NarrowCounts(rows[1..], sel, ds);
      assert rows == [rows[0]] + rows[1..];
    }
  }

  /** The filtered table: the rows every dimension admits. */
  function Filtered(rows: seq<JoinedRow>, sel: Selection): seq<JoinedRow>
  {
    Narrow(rows, sel, Dims)
  }

  /**
    `df[df[column].isin(values)]`: one filtering step of the script
    (`KeepInSpec` states what it keeps).
  */
  function KeepIn(rows: seq<JoinedRow>, d: Dim, values: set<string>): seq<JoinedRow>
  {
    if rows == [] then []
    else
      var rest := KeepIn(rows[1..], d, values);
      assert rows == [rows[0]] + rows[1..];
      if IsIn(Field(rows[0], d), values) then
        [rows[0]] + rest
      else
        rest
  }

  /**
    One `isin` step keeps exactly the rows whose cell is present and
    selected, each as often as the table holds it, in table order.
  */
  lemma {:induction false} KeepInSpec(rows: seq<JoinedRow>, d: Dim, values: set<string>)
    ensures forall r :: r in KeepIn(rows, d, values) <==> r in rows && IsIn(Field(r, d), values)
    ensures forall r :: multiset(KeepIn(rows, d, values))[r] == if IsIn(Field(r, d), values) then multiset(rows)[r] else 0
    ensures Subseq(KeepIn(rows, d, values), rows)
  {
    if rows != [] {
      var rest := KeepIn(rows[1..], d, values);
      KeepInSpec(rows[1..], d, values);
      assert forall r :: r in rows <==> r == rows[0] || r in rows[1..];
      assert rows == [rows[0]] + rows[1..];
      if IsIn(Field(rows[0], d), values) {
        SubseqKeep(rows[0], rest, rows[1..]);
      } else {
        SubseqDrop(rows[0], rest, rows[1..]);
      }
    }
  }

  lemma NarrowNothing(rows: seq<JoinedRow>, sel: Selection)
    ensures Narrow(rows, sel, []) == rows
  {
  }

  /**
    Applying one more dimension's step to the rows admitted so far gives
    the rows admitted on one more dimension; a dimension with nothing
    chosen adds no restriction.
  */
  lemma {:induction false} NarrowStep(rows: seq<JoinedRow>, sel: Selection, ds: seq<Dim>, d: Dim)
    ensures Chosen(sel, d) != {} ==> KeepIn(Narrow(rows, sel, ds), d, Chosen(sel, d)) == Narrow(rows, sel, ds + [d])
    ensures Chosen(sel, d) == {} ==> Narrow(rows, sel, ds) == Narrow(rows, sel, ds + [d])
  {
    forall r ensures AdmitsAll(sel, ds + [d], r) <==> AdmitsAll(sel, ds, r) && Admits(Chosen(sel, d), Field(r, d)) {
      assert (ds + [d])[|ds|] == d;
      assert forall k :: 0 <= k < |ds| ==> (ds + [d])[k] == ds[k];
    }
    if rows != [] {
      NarrowStep(rows[1..], sel, ds, d);
    }
  }

  /** One conditional reassignment of the chain: the step for dimension `k`, from the rows admitted on the earlier ones. */
  lemma FilterStep(rows: seq<JoinedRow>, sel: Selection, k: nat, before: seq<JoinedRow>, after: seq<JoinedRow>)
    requires k < |Dims|
    requires before == Narrow(rows, sel, Dims[..k])
    requires after == if Chosen(sel, Dims[k]) != {} then KeepIn(before, Dims[k], Chosen(sel, Dims[k])) else before
    ensures after == Narrow(rows, sel, Dims[..k + 1])
  {
    NarrowStep(rows, sel, Dims[..k], Dims[k]);
    assert Dims[..k] + [Dims[k]] == Dims[..k + 1];
  }

  /**
    The script's filter chain: `df` is reassigned once per dimension with a
    non-empty selection, in the order platform, product, category, gender.
    The result is the filtered table.
  */
  method ApplyFilters(rows: seq<JoinedRow>, sel: Selection) returns (df: seq<JoinedRow>)
    ensures df == Filtered(rows, sel)
  {
    df := rows;
    NarrowNothing(rows, sel);
    assert Dims[..0] == [];
    ghost var before := df;
    if sel.platforms != {} {
      df := KeepIn(df, Platform, sel.platforms);
    }
    FilterStep(rows, sel, 0, before, df);
    before := df;
    if sel.products != {} {
      df := KeepIn(df, Product, sel.products);
    }
    FilterStep(rows, sel, 1, before, df);
    before := df;
    if sel.categories != {} {
      df := KeepIn(df, Category, sel.categories);
    }
    FilterStep(rows, sel, 2, before, df);
    before := df;
    if sel.genders != {} {
      df := KeepIn(df, Gender, sel.genders);
    }
    FilterStep(rows, sel, 3, before, df);
    assert Dims[..4] == Dims;
  }

  /**
    What survives the filters: a row is kept exactly when, for each of the
    four dimensions, nothing is chosen or its cell is present and chosen;
    a surviving row keeps every copy the table holds, and survivors keep
    their table order.
  */
  lemma FilteredSpec(rows: seq<JoinedRow>, sel: Selection)
    ensures forall r :: r in Filtered(rows, sel) <==> (
      && r in rows
      && (sel.platforms == {} || IsIn(r.track.platform, sel.platforms))
      && (sel.products == {} || IsIn(r.track.product, sel.products))
      && (sel.categories == {} || (r.inf.Some? && IsIn(r.inf.value.category, sel.categories)))
      && (sel.genders == {} || (r.inf.Some? && IsIn(r.inf.value.gender, sel.genders))))
    ensures forall r :: r in Filtered(rows, sel) ==> multiset(Filtered(rows, sel))[r] == multiset(rows)[r]
    ensures Subseq(Filtered(rows, sel), rows)
  {
    NarrowCounts(rows, sel, Dims);
    forall r ensures Accepts(sel, r) <==>
      && (sel.platforms == {} || IsIn(r.track.platform, sel.platforms))
      && (sel.products == {} || IsIn(r.track.product, sel.products))
      && (sel.categories == {} || (r.inf.Some? && IsIn(r.inf.value.category, sel.categories)))
      && (sel.genders == {} || (r.inf.Some? && IsIn(r.inf.value.gender, sel.genders)))
    {
      assert Dims[0] == Platform && Dims[1] == Product && Dims[2] == Category && Dims[3] == Gender;
    }
  }

  /** With nothing selected the table passes unchanged. */
  lemma {:induction false} NoSelectionKeepsAll(rows: seq<JoinedRow>)
    ensures Filtered(rows, NoSelection) == rows
  {
    if rows != [] {
      NoSelectionKeepsAll(rows[1..]);
    }
  }

  /**
    `sel2` restricts no dimension more than `sel` does: each of its
    selections is empty, or contains a non-empty selection of `sel`.
    (Adding values to an EMPTY selection is a narrowing, because an empty
    selection admits everything.)
  */
  predicate Wider(sel: Selection, sel2: Selection)
  {
    forall d :: Chosen(sel2, d) == {} || (Chosen(sel, d) != {} && Chosen(sel, d) <= Chosen(sel2, d))
  }

  lemma {:induction false} NarrowMonotone(rows: seq<JoinedRow>, sel: Selection, sel2: Selection, ds: seq<Dim>)
    requires forall r :: AdmitsAll(sel, ds, r) ==> AdmitsAll(sel2, ds, r)
    ensures Subseq(Narrow(rows, sel, ds), Narrow(rows, sel2, ds))
  {
    if rows != [] {
      NarrowMonotone(rows[1..], sel, sel2, ds);
      var a := Narrow(rows[1..], sel, ds);
      var b := Narrow(rows[1..], sel2, ds);
      if AdmitsAll(sel, ds, rows[0]) {
        SubseqKeep(rows[0], a, b);
      } else if AdmitsAll(sel2, ds, rows[0]) {
        SubseqDrop(rows[0], a, b);
      }
    }
  }

  /**
    Widening the selection never loses a row and narrowing it never gains
    one: the narrower result is an order-preserving subsequence of the
    wider one, so it is no longer.
  */
  lemma FilterMonotone(rows: seq<JoinedRow>, sel: Selection, sel2: Selection)
    requires Wider(sel, sel2)
    ensures Subseq(Filtered(rows, sel), Filtered(rows, sel2))
    ensures multiset(Filtered(rows, sel)) <= multiset(Filtered(rows, sel2))
    ensures |Filtered(rows, sel)| <= |Filtered(rows, sel2)|
  {
    forall r | AdmitsAll(sel, Dims, r) ensures AdmitsAll(sel2, Dims, r) {
      forall k | 0 <= k < |Dims| ensures Admits(Chosen(sel2, Dims[k]), Field(r, Dims[k])) {
        assert Admits(Chosen(sel, Dims[k]), Field(r, Dims[k]));
      }
    }
    NarrowMonotone(rows, sel, sel2, Dims);
    SubseqMultiset(Filtered(rows, sel), Filtered(rows, sel2));
  }

  /**
    A row with no influencer match has null category and gender, so a
    non-empty category or gender selection drops it.
  */
  lemma UnmatchedRowsDropped(sel: Selection, r: JoinedRow)
    requires r.inf.None?
    requires sel.categories != {} || sel.genders != {}
    ensures !Accepts(sel, r)
  {
    if sel.categories != {} {
      assert !Admits(Chosen(sel, Dims[2]), Field(r, Dims[2]));
    } else {
      assert !Admits(Chosen(sel, Dims[3]), Field(r, Dims[3]));
    }
  }
}
