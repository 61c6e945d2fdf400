/**
  One run of the dashboard's pipeline over the four uploaded tables and a
  filter selection (app.py lines 35-106): join, filter, KPIs, leaderboard,
  top posts, poor-ROI list, export table and summary document. `Compute`
  is the pipeline as one function of its inputs; `Run` follows the script's
  own steps.
*/
module Dashboard {
  import opened Wrappers
  import opened Tables
  import opened Seqs
  import opened Join
  import opened Filters
  import opened Metrics
  import opened Leaderboard
  import opened Engagement
  import opened Export

  /** The four uploaded tables, already parsed into records. */
  datatype Uploads = Uploads(
    influencers: seq<Influencer>,
    posts: seq<Post>,
    tracking: seq<Tracking>,
    payouts: seq<Payout>)

  /** Everything one run shows or offers for download, short of rendering. */
  datatype State = State(
    kpis: Kpis,
    board: seq<Ranked>,
    topPosts: seq<PostRow>,
    poor: seq<Ranked>,
    exportTable: seq<ExportRow>)

  /** The joined table before any filter. */
  function Joined(u: Uploads): seq<JoinedRow>
  {
    Merge(u.tracking, u.influencers, u.payouts)
  }

  /** The pipeline as a function of the uploads and the selection. */
  function Compute(u: Uploads, sel: Selection): State
  {
    var rows := Filtered(Joined(u), sel);
    var board := Board(rows);
    State(ComputeKpis(rows), board, TopPosts(JoinNames(u.posts, u.influencers)), PoorRoi(board), ExportTable(board))
  }

  /**
    The script's run: the filter chain reassigns the joined table, the
    stages that follow read the result, and the summary document is written
    line by line. What it shows is `Compute`'s state, and the document lists
    the leaderboard from the top, at most 20 rows.
  */
  method Run(u: Uploads, sel: Selection) returns (state: State, doc: seq<DocLine>)
    ensures state == Compute(u, sel)
    ensures |doc| == 1 + (if |state.board| < DocRows then |state.board| else DocRows)
    ensures doc[0] == Title
    ensures forall i :: 0 <= i < |doc| - 1 ==>
      doc[i + 1] == EntryLine(state.board[i].entry.key.name, state.board[i].entry.totals.revenue, state.board[i].entry.roas)
  {
    var df := Joined(u);
    df := ApplyFilters(df, sel);
    var board := Board(df);
    var table := ExportTable(board);
    state := State(ComputeKpis(df), board, TopPosts(JoinNames(u.posts, u.influencers)), PoorRoi(board), table);
    doc := SummaryDocument(table);
  }

  lemma EmptyBoard(rows: seq<JoinedRow>)
    requires rows == []
    ensures Board(rows) == []
  {
    assert KeysOf(rows) == [];
  }

  /**
    A selection no row survives is not an error: the KPIs read 0 orders, 0
    revenue and 0 payout with ROAS and ROI 0, and the leaderboard, the
    poor-ROI list and the export table are empty.
  */
  lemma NothingSelected(u: Uploads, sel: Selection)
    requires Filtered(Joined(u), sel) == []
    ensures Compute(u, sel).kpis == Kpis(Zero, 0.0, 0.0)
    ensures Compute(u, sel).board == [] && Compute(u, sel).poor == [] && Compute(u, sel).exportTable == []
  {
    EmptyKpis();
    EmptyBoard(Filtered(Joined(u), sel));
  }

  /**
    In particular a platform selection that no tracking row matches leaves
    every table empty and the KPIs at zero.
  */
  lemma UnmatchedPlatform(u: Uploads, sel: Selection)
    requires sel.platforms != {}
    requires forall t :: t in u.tracking ==> !IsIn(t.platform, sel.platforms)
    ensures Compute(u, sel).kpis == Kpis(Zero, 0.0, 0.0)
    ensures Compute(u, sel).board == [] && Compute(u, sel).poor == [] && Compute(u, sel).exportTable == []
  {
    var rows := Filtered(Joined(u), sel);
    FilteredSpec(Joined(u), sel);
    MergeRows(u.tracking, u.influencers, u.payouts);
    NoMembers(rows);
    NothingSelected(u, sel);
  }

  /** The group keys of a sub-table are group keys of the table. */
  lemma KeysOfSub(sub: seq<JoinedRow>, rows: seq<JoinedRow>)
    requires Subseq(sub, rows)
    ensures |KeysOf(sub)| <= |KeysOf(rows)|
  {
    SubseqMultiset(sub, rows);
    forall k | k in KeysOf(sub) ensures k in KeysOf(rows) {
      var r :| r in sub && KeyOf(r) == Some(k);
      assert r in multiset(rows);
    }
    NoDupShorter(KeysOf(sub), KeysOf(rows));
  }

  /**
    The leaderboard never has more rows than there are distinct (influencer
    id, name) pairs in the joined table, and narrowing the selection never
    lengthens it.
  */
  lemma BoardMonotone(u: Uploads, sel: Selection, sel2: Selection)
    requires Wider(sel, sel2)
    ensures |Compute(u, sel).board| <= |Compute(u, sel2).board|
    ensures |Compute(u, sel).board| <= |KeysOf(Joined(u))|
  {
    var rows := Joined(u);
    FilterMonotone(rows, sel, sel2);
    BoardGroups(Filtered(rows, sel));
    BoardGroups(Filtered(rows, sel2));
    KeysOfSub(Filtered(rows, sel), Filtered(rows, sel2));
    FilteredSpec(rows, sel);
    KeysOfSub(Filtered(rows, sel), rows);
  }

  const InfA := Influencer("A", Some("Asha"), Some("Fitness"), Some("Female"))
  const InfB := Influencer("B", Some("Bala"), Some("Nutrition"), Some("Male"))
  const TrackA := Tracking("A", Some("Instagram"), Some("MuscleBlaze"), 10, 1000.0)
  const TrackB := Tracking("B", Some("YouTube"), Some("HKVitals"), 5, 200.0)
  const PayA := Payout("A", 10, 500.0)
  const RowA := JoinedRow(TrackA, Some(InfA), Some(PayA))
  const RowB := JoinedRow(TrackB, Some(InfB), None)
  const KeyA := GroupKey("A", "Asha")
  const KeyB := GroupKey("B", "Bala")

  lemma ScenarioJoin()
    ensures Joined(Uploads([InfA, InfB], [], [TrackA, TrackB], [PayA])) == [RowA, RowB]
  {
    var u := Uploads([InfA, InfB], [], [TrackA, TrackB], [PayA]);
    assert UniqueKeys(u.influencers, InfKey) && UniqueKeys(u.payouts, PayKey);
    MergeUnique(u.tracking, u.influencers, u.payouts);
    assert Matches(u.influencers, InfKey, "A") == [InfA];
    assert Matches(u.influencers, InfKey, "B") == [InfB];
    assert Matches(u.payouts, PayKey, "A") == [PayA];
    assert Matches(u.payouts, PayKey, "B") == [];
  }

  lemma SumPair(a: JoinedRow, b: JoinedRow)
    ensures Sum([a, b]) == Plus(RowTotals(a), RowTotals(b))
  {
    SumFirst([a, b]);
    assert [a, b][1..] == [b];
    SumFirst([b]);
    assert [b][1..] == [];
    PlusZero(RowTotals(b));
  }

  lemma MembersPair(a: JoinedRow, b: JoinedRow, k: GroupKey)
    ensures Sum(Members([a, b], k)) == Plus(Pick(a, k), Pick(b, k))
  {
    MembersFirst([a, b], k);
    assert [a, b][1..] == [b];
    MembersFirst([b], k);
    assert [b][1..] == [];
    PlusZero(Pick(b, k));
  }

  lemma ScenarioTotals()
    ensures Sum([RowA, RowB]) == Totals(15, 1200.0, 500.0)
  {
    SumPair(RowA, RowB);
    assert RowTotals(RowA) == Totals(10, 1000.0, 500.0);
    assert RowTotals(RowB) == Totals(5, 200.0, 0.0);
  }

  lemma KeysPair(a: JoinedRow, b: JoinedRow, ka: GroupKey, kb: GroupKey)
    requires KeyOf(a) == Some(ka) && KeyOf(b) == Some(kb) && ka != kb
    ensures KeysOf([a, b]) == [ka, kb]
  {
    assert [a, b][1..] == [b];
    assert [b][1..] == [];
    assert KeysOf([b]) == [kb];
  }

  lemma GroupsPair(a: JoinedRow, b: JoinedRow, ka: GroupKey, kb: GroupKey)
    requires KeyOf(a) == Some(ka) && KeyOf(b) == Some(kb) && ka != kb
    ensures Groups([a, b]) == [
      Entry(ka, RowTotals(a), Divide(RowTotals(a).revenue, RowTotals(a).payout)),
      Entry(kb, RowTotals(b), Divide(RowTotals(b).revenue, RowTotals(b).payout))]
  {
    KeysPair(a, b, ka, kb);
    MembersPair(a, b, ka);
    MembersPair(a, b, kb);
    PlusZero(RowTotals(a));
    PlusZero(RowTotals(b));
  }

  lemma ScenarioGroups()
    ensures Groups([RowA, RowB]) == [
      Entry(KeyA, Totals(10, 1000.0, 500.0), Finite(2.0)),
      Entry(KeyB, Totals(5, 200.0, 0.0), PosInf)]
  {
    GroupsPair(RowA, RowB, KeyA, KeyB);
    assert RowTotals(RowA) == Totals(10, 1000.0, 500.0);
    assert RowTotals(RowB) == Totals(5, 200.0, 0.0);
  }

  lemma ScenarioBoard()
    ensures Board([RowA, RowB]) == [
      Ranked(1, Entry(KeyA, Totals(10, 1000.0, 500.0), Finite(2.0))),
      Ranked(2, Entry(KeyB, Totals(5, 200.0, 0.0), PosInf))]
  {
    ScenarioGroups();
    var eA := Entry(KeyA, Totals(10, 1000.0, 500.0), Finite(2.0));
    var eB := Entry(KeyB, Totals(5, 200.0, 0.0), PosInf);
    assert [eA, eB][1..] == [eB];
    assert [eB][1..] == [];
    assert SortDesc([eB], RevenueKey) == [eB];
    assert SortDesc([eA, eB], RevenueKey) == [eA, eB];
  }

  lemma ScenarioPoor(eA: Entry, eB: Entry)
    requires eA.roas == Finite(2.0) && eB.roas == PosInf
    ensures PoorRoi([Ranked(1, eA), Ranked(2, eB)]) == []
  {
    var board := [Ranked(1, eA), Ranked(2, eB)];
    assert board[1..] == [Ranked(2, eB)];
    assert board[1..][1..] == [];
  }

  /**
    Two influencers, A with 10 orders, 1000 revenue and a payout of 500, and
    B with 5 orders, 200 revenue and no payout row, nothing selected: the
    KPIs read 15 orders, 1200 revenue, 500 payout, ROAS 2.4 and ROI 1.4; the
    leaderboard ranks A first with ROAS 2 and B second with payout 0 and,
    the per-influencer ratio being unguarded, ROAS +inf; neither is poor.
  */
  lemma TwoInfluencers()
    ensures var st := Compute(Uploads([InfA, InfB], [], [TrackA, TrackB], [PayA]), NoSelection);
      && st.kpis == Kpis(Totals(15, 1200.0, 500.0), 2.4, 1.4)
      && st.board == [
        Ranked(1, Entry(KeyA, Totals(10, 1000.0, 500.0), Finite(2.0))),
        Ranked(2, Entry(KeyB, Totals(5, 200.0, 0.0), PosInf))]
      && st.poor == []
  {
    ScenarioJoin();
    NoSelectionKeepsAll([RowA, RowB]);
    ScenarioBoard();
    ScenarioPoor(Entry(KeyA, Totals(10, 1000.0, 500.0), Finite(2.0)), Entry(KeyB, Totals(5, 200.0, 0.0), PosInf));
    ScenarioTotals();
  }
}
