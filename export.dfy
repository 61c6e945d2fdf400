/**
  The export step (app.py lines 92 and 101-109): the leaderboard projected
  to name, orders, revenue, payout and ROAS, and the summary document, a
  title line followed by one line for each of the first 20 rows of that
  projection. Rounding, number formatting, the page layout and the bytes
  of both files are not part of this model.
*/
module Export {
  import opened Seqs
  import opened Metrics
  import opened Leaderboard

  /** A row of the export table. */
  datatype ExportRow = ExportRow(name: string, orders: int, revenue: real, payout: real, roas: Ratio)

  /** A line of the summary document. */
  datatype DocLine = Title | EntryLine(name: string, revenue: real, roas: Ratio)

  /** How many leaderboard rows the summary document lists. */
  const DocRows: nat := 20

  function Project(x: Ranked): ExportRow
  {
    ExportRow(x.entry.key.name, x.entry.totals.orders, x.entry.totals.revenue, x.entry.totals.payout, x.entry.roas)
  }

  /**
    `top_inf[['name', 'orders', 'revenue', 'total_payout', 'ROAS']]`: one
    export row per leaderboard row, in rank order, carrying that row's
    name, sums and ROAS.
  */
  function ExportTable(board: seq<Ranked>): (table: seq<ExportRow>)
    ensures |table| == |board|
    ensures forall i :: 0 <= i < |board| ==>
      && table[i].name == board[i].entry.key.name
      && table[i].orders == board[i].entry.totals.orders
      && table[i].revenue == board[i].entry.totals.revenue
      && table[i].payout == board[i].entry.totals.payout
      && table[i].roas == board[i].entry.roas
  {
    seq(|board|, i requires 0 <= i < |board| => Project(board[i]))
  }

  /** The document line for one export row: its name, revenue and ROAS. */
  function LineOf(row: ExportRow): DocLine
  {
    EntryLine(row.name, row.revenue, row.roas)
  }

  /**
    The document body as the script writes it: the title cell, then, in
    order, one cell per row of `export_df.head(20)`. The document has
    min(20, n) + 1 lines; line i + 1 is the line of row i; rows past the
    twentieth are left out.
  */
  method SummaryDocument(table: seq<ExportRow>) returns (doc: seq<DocLine>)
    ensures |doc| == 1 + (if |table| < DocRows then |table| else DocRows)
    ensures doc[0] == Title
    ensures forall i :: 0 <= i < |doc| - 1 ==> doc[i + 1] == LineOf(table[i])
  {
    var head := Take(table, DocRows);
    doc := [Title];
    for k := 0 to |head|
      invariant |doc| == k + 1
      invariant doc[0] == Title
      invariant forall i :: 0 <= i < k ==> doc[i + 1] == LineOf(head[i])
    {
      doc := doc + [LineOf(head[k])];
    }
  }
}
