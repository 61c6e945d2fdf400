# HealthKart influencer dashboard: the data pipeline, verified

The dashboard (`app.py`) reads four tables: influencers, posts, tracking and
payouts. It does the following:

- canonicalises their column labels;
- renames the payout table's `orders` column;
- left-joins tracking with influencers and then with payouts on `influencer_id`;
- narrows the joined table by up to four inclusion filters (platform, product, category, gender);
- shows the totals with a guarded ROAS and ROI;
- builds a revenue-ranked per-influencer leaderboard;
- lists the ten most engaging posts;
- lists the leaderboard rows whose ROAS is below 1;
- offers the leaderboard as an export table and as a summary document of at most 20 lines.

This project models that pipeline in Dafny on typed records in place of
data frames. A cell that can be null in the joined table is an `Option`.
The project proves what each stage promises.

Modules, in pipeline order:

- `Columns` covers label canonicalisation and the payout rename.
- `Tables` holds the records.
- `Join` covers the left joins, including duplicate-key fan-out.
- `Filters` covers the filter chain. `ApplyFilters` is a method that reassigns the table, as the script does.
- `Metrics` covers the sums, the guarded KPI ratios and the unguarded per-group ratio.
- `Leaderboard` covers the group-by, the sort, the ranking and the poor-ROI list.
- `Engagement` covers the post join, the scoring and the top-10 list.
- `Export` covers the export projection. `SummaryDocument` is a method whose loop writes the document line by line.
- `Dashboard` is the whole run, its empty-selection behaviour, its monotonicity and a two-influencer scenario.
- `Seqs` holds the shared sequence facts: subsequences, `head(n)` and a descending sort.

Behaviour of the code that the model keeps, surprising as some of it is:

- Only the KPI tiles guard against a zero payout (`app.py:57-58`). The per-influencer ratio at `app.py:67` is `revenue / total_payout` with no zero guard.
  - A zero-payout group therefore gets +inf, -inf or NaN, and keeps its place on the leaderboard.
  - So in the two-influencer scenario, influencer B (no payout row) has ROAS +inf.
  - A -inf ROAS compares below 1, so it enters the poor-ROI list.
- `sort_values` uses the default quicksort, which is not stable (`app.py:68`, `app.py:78`). The model promises no order among equal revenues or among equal engagement scores.
- Every joined row carries its influencer's whole `total_payout` (`app.py:36`). An influencer with several tracking rows has that payout summed once per row, in the KPI total (`app.py:56`) and in its group (`app.py:66`). `Metrics.PayoutRepeated` states this.

## Model

| member | source | states |
|---|---|---|
| Columns.Strip | app.py:23 | the result is a slice of the label that neither starts nor ends with whitespace, and everything cut from either end is whitespace |
| Columns.LowerChar | app.py:23 | an upper-case ASCII letter becomes the matching lower-case letter; every other character is unchanged |
| Columns.Lower | app.py:23 | same length; each upper-case ASCII letter becomes its lower-case letter and every other character stays as it was, so no upper-case ASCII letter is left |
| Columns.SpacesToUnderscores | app.py:23 | same length; each space becomes `_` and every other character stays as it was |
| Columns.Normalize | app.py:23 | the canonical label is the stripped label, character by character, with spaces as `_` and upper-case ASCII letters lowered; so it has no whitespace at either end, no upper-case ASCII letter and no space |
| Columns.NormalizeCanonical | app.py:23 | a label that is already stripped, with no upper-case ASCII letter and no space, is its own canonical form |
| Columns.NormalizeIdempotent | app.py:23 | canonicalising twice is the same as canonicalising once |
| Columns.NormalizeExample | app.py:23 | " Total Payout " becomes "total_payout" |
| Columns.NormalizeColumns | app.py:23 | every label of a table is canonicalised, and the count and order of the labels are kept |
| Columns.RenamePayoutOrders | app.py:32 | no `orders` label is left; each former `orders` is `payout_orders`; every other label is unchanged |
| Columns.PayoutOrdersRenamed | app.py:23-32 | any raw payout label that canonicalises to `orders` reaches the joins as `payout_orders`, which canonicalisation leaves as it is; other labels arrive canonicalised; a tracking label `orders` reaches the joins unchanged |
| Join.Matches | app.py:35 | the rows of the right table with the key, and only those |
| Join.MatchesCounts | app.py:35 | each right row with the key is matched as often as the table holds it, and no other row is matched |
| Join.Padded | app.py:35 | a left row is paired with each of its matches, or with a single null when it has none |
| Join.LeftJoin | app.py:35 | every left row is kept; a matched right row has the same key; a null means no right row has that key; every matching pair appears, and so does every unmatched row with a null |
| Join.LeftJoinKeeps | app.py:35 | each left row reaches the output |
| Join.LeftJoinFirst | app.py:35 | the join starts with the first left row's block: that row with each of its matches, or with a null |
| Join.LeftJoinAppend | app.py:35 | joining a concatenation is the concatenation of the joins |
| Join.LeftJoinUnique | app.py:35 | with unique right keys, the output has one row per left row, in the left table's order, paired with its lookup |
| Join.Merge | app.py:35-36 | the two joins; what they give is stated by MergeRows, MergeKeepsTracking, MergeUnique and MergeIsBlocks |
| Join.MergeRows | app.py:35-36 | each joined row is a tracking row with a same-key influencer or null, and a same-key payout or null |
| Join.MergeKeepsTracking | app.py:35-36 | no tracking row is lost by the two joins |
| Join.MergeUnique | app.py:35-36 | with unique influencer and payout keys, the joined table lines up one for one with the tracking table, with the looked-up influencer and payout |
| Join.Cross | app.py:35-36 | a tracking row's block has (influencer options) × (payout options) rows, all carrying that tracking row |
| Join.MergeIsBlocks | app.py:35-36 | the two joins equal the block-by-block reference join, so each tracking row appears max(1, matching influencers) × max(1, matching payouts) times |
| Filters.Narrow | app.py:44-51 | the result holds exactly the rows every listed dimension admits, as an order-preserving subsequence of the table |
| Filters.NarrowCounts | app.py:44-51 | each admitted row is kept as often as the table holds it, and no other row is kept |
| Filters.KeepInSpec | app.py:45 | one `isin` step (`KeepIn`) keeps exactly the rows whose cell is present and selected, each as often as the table holds it, as an order-preserving subsequence of the table |
| Filters.Filtered | app.py:44-51 | the filtered table; what it holds is stated by FilteredSpec and FilterMonotone |
| Filters.FilterStep | app.py:44-51 | one conditional reassignment of the chain takes the rows admitted on the earlier dimensions to those admitted on one more |
| Filters.NarrowStep | app.py:44-51 | one conditional step of the chain is the same as admitting one more dimension; an empty selection skips the step |
| Filters.ApplyFilters | app.py:44-51 | the filter chain, run step by step on a reassigned table, leaves exactly the filtered table |
| Filters.FilteredSpec | app.py:44-51 | a row survives if and only if, in each of the four dimensions, the selection is empty or the row's cell is present and selected; a surviving row keeps every copy the table holds; the survivors keep their order |
| Filters.NoSelectionKeepsAll | app.py:44-51 | with nothing selected, the table passes unchanged |
| Filters.FilterMonotone | app.py:44-51 | widening a selection never drops a row, and narrowing one never adds a row |
| Filters.UnmatchedRowsDropped | app.py:48-51 | under a non-empty category or gender selection, a row without an influencer match is dropped |
| Metrics.PayoutOf | app.py:36 | a row's payout cell, null counted as 0; stated by ComputeKpis and PayoutRepeated |
| Metrics.Sum | app.py:54-56 | the column sums; stated by SumAppend, NamedSplit, BoardTotals and PayoutRepeated |
| Metrics.PayoutRepeated | app.py:36-56 | n joined rows carrying the same payout row sum to n times its `total_payout` |
| Metrics.SumAppend | app.py:54-56 | the column sums split over a concatenation |
| Metrics.SumRevenueNonNegative | app.py:55 | non-negative revenues sum to a non-negative revenue |
| Metrics.ComputeKpis | app.py:54-58 | the totals are the column sums, with null payout counted as 0; ROAS and ROI are 0 when the payout total is 0; otherwise ROAS × payout = revenue and ROI = ROAS − 1 |
| Metrics.EmptyKpis | app.py:54-58 | an empty table gives 0 orders, 0 revenue, 0 payout, and ROAS and ROI of 0 |
| Metrics.Divide | app.py:67 | the ratio is finite exactly when the payout is non-zero, and then ratio × payout equals revenue; +inf or -inf when the payout is zero, by the revenue's sign; NaN for 0/0 |
| Metrics.Below | app.py:84 | the float comparison `ROAS < bound`, false on NaN and +inf and true on -inf; stated by BelowOne |
| Metrics.BelowOne | app.py:84 | ROAS < 1 holds exactly when the payout is positive and exceeds the revenue, or negative and below it, or zero with negative revenue |
| Leaderboard.KeyOf | app.py:66 | a row's group key, none when its name is null; stated by KeysOf and BoardKeys |
| Leaderboard.Members | app.py:66 | a group's rows are exactly the rows carrying its (id, name) key |
| Leaderboard.MembersCounts | app.py:66 | a group holds each row with its key as often as the table does, and no other row |
| Leaderboard.KeysOf | app.py:66 | the group keys, each once, are exactly the keys of rows with a non-null name |
| Leaderboard.GroupsOf | app.py:66-67 | one aggregate per key: the group's sums and revenue/payout |
| Leaderboard.Aggregate | app.py:66-67 | a group's sums and unguarded revenue/payout; stated by GroupsOf, OnBoard and GroupsPair |
| Leaderboard.Groups | app.py:66-67 | the groups of the filtered table; stated by SortedGroups and BoardGroups |
| Leaderboard.Board | app.py:66-69 | the leaderboard; stated by BoardOrder, BoardGroups and BoardTotals |
| Leaderboard.Rank | app.py:69 | entry i of the sorted table gets rank i + 1 |
| Leaderboard.BoardOrder | app.py:68-69 | ranks run 1..n down the leaderboard, and revenue never increases from one rank to the next |
| Leaderboard.SortedGroups | app.py:66-68 | the leaderboard is the sorted groups, a permutation of them, one per distinct key |
| Leaderboard.OnBoard | app.py:66-68 | every leaderboard row is one of the groups, carrying its key's sums and ROAS |
| Leaderboard.BoardKeysDistinct | app.py:66 | no key is on the leaderboard twice |
| Leaderboard.BoardKeys | app.py:66 | a key is on the leaderboard if and only if some filtered row with a non-null name carries it |
| Leaderboard.BoardGroups | app.py:66-67 | the leaderboard has one row per distinct (id, non-null name) pair, a permutation of the groups, each with that group's sums and ROAS (rank and order are BoardOrder's) |
| Leaderboard.SumEntriesPermutation | app.py:68 | reordering the groups leaves their summed totals unchanged |
| Leaderboard.GroupSumNamed | app.py:66 | summing the groups of all keys gives the totals of the rows with a non-null name |
| Leaderboard.NamedSplit | app.py:66 | the table's totals are those of the named rows plus those of the rows `groupby` drops |
| Leaderboard.BoardTotals | app.py:66 | the leaderboard's totals are those of the named rows, and with the dropped rows added back they are the KPI totals |
| Leaderboard.PoorRoi | app.py:84 | a row is listed if and only if it is on the leaderboard with ROAS < 1; the list keeps leaderboard order; it is empty when no row qualifies |
| Leaderboard.PoorEntry | app.py:84 | with non-negative revenues, a leaderboard row with ROAS < 1 has a non-zero payout and a finite ROAS, and its revenue is below its payout when the payout is positive; a row with a positive payout above its revenue has ROAS < 1 |
| Leaderboard.PoorRoiNonNegative | app.py:84 | with non-negative revenues, no zero-payout group is listed; each listed group has a finite ROAS, and revenue below payout when the payout is positive (a negative payout is listed too); every group with a positive payout above its revenue is listed |
| Engagement.WithNames | app.py:75 | one row per joined pair, keeping the post, with the matched influencer's name, or a null name where no influencer matched |
| Engagement.JoinNames | app.py:75 | the post/name join; stated by JoinNamesSpec and JoinNamesUnique |
| Engagement.JoinNamesSpec | app.py:75 | every post is kept and none is invented; each post appears with the name of every influencer with its id; a name comes only from such an influencer; a post with no matching influencer gets a null name |
| Engagement.JoinNamesUnique | app.py:75 | with unique influencer ids, the posts are kept one for one and in order, each with its influencer's name, or null when none has its id |
| Engagement.Score | app.py:77 | a post's engagement, likes + comments; stated by TopPostsSpec |
| Engagement.TopPosts | app.py:78 | the ten most engaging posts; stated by TopPrefix and TopPostsSpec |
| Engagement.TopPrefix | app.py:78 | the list is the head of the table sorted by engagement, and what it leaves out is the rest of that sorted table |
| Engagement.TopPostsSpec | app.py:77-78 | min(10, n) posts with non-increasing likes + comments, all drawn from the table, each scoring at least as high as every post left out |
| Export.ExportTable | app.py:92 | one export row per leaderboard row, in rank order, with its name, orders, revenue, payout and ROAS |
| Export.LineOf | app.py:107 | an export row's document line: its name, revenue and ROAS; stated by SummaryDocument |
| Export.SummaryDocument | app.py:104-109 | a title line, then min(20, n) lines, where line i + 1 is that of export row i |
| Seqs.Take | app.py:78 | `head(n)` has min(n, length) elements, the first ones of the table |
| Seqs.SortDesc | app.py:68 | the result is in non-increasing key order and is a permutation of the input |
| Seqs.SubseqMultiset | app.py:44-51 | a filtered (order-preserving) sub-table draws no row more often than the table holds it |
| Dashboard.Compute | app.py:35-92 | the pipeline as one function of the uploads and the selection; stated by Run, NothingSelected, UnmatchedPlatform, BoardMonotone and TwoInfluencers |
| Dashboard.Run | app.py:35-109 | the script's run shows the pipeline's state, and its document is the title followed by the first min(20, n) leaderboard rows, in rank order |
| Dashboard.NothingSelected | app.py:54-92 | a selection that no row survives gives zero KPIs and an empty leaderboard, poor-ROI list and export table, not an error |
| Dashboard.UnmatchedPlatform | app.py:44-58 | a platform selection that no tracking row matches gives zero KPIs and empty tables |
| Dashboard.BoardMonotone | app.py:44-66 | narrowing a selection never lengthens the leaderboard, which never has more rows than the joined table has distinct named keys |
| Dashboard.ScenarioJoin | app.py:35-36 | in the scenario, the joins give A its influencer and payout, and give B its influencer and a null payout |
| Dashboard.GroupsPair | app.py:66-67 | two rows with distinct keys form two groups, each with its own row's sums and ratio |
| Dashboard.ScenarioBoard | app.py:66-69 | in the scenario, A ranks first with ROAS 2, and B ranks second with payout 0 and ROAS +inf |
| Dashboard.TwoInfluencers | app.py:35-84 | A (10 orders, 1000 revenue, payout 500) and B (5 orders, 200 revenue, no payout row) give totals of 15/1200/500, ROAS 2.4 and ROI 1.4, the two-row leaderboard above, and an empty poor-ROI list |

## Left out

- The Streamlit interface is not modelled: the uploaders, the missing-file stop, the option lists of the multiselects, the metric tiles, the data-frame views and the download buttons (app.py:6-18, 39-42, 60-63, 71, 85-88, 94-98, 112). This is presentation. The model takes the four parsed tables and the selection as parameters.
- CSV parsing (`read_csv`, app.py:22) is file I/O. The model starts from parsed records, with a typed field per column.
- A null or non-numeric `orders`, `revenue`, `likes` or `comments` cell is not modelled, and neither is a null join key. Those fields are plain numbers and strings. Only `total_payout`, which is null after an unmatched payout join, is summed as 0.
- The plotly chart (app.py:79-80) is not modelled, because it is a foreign library.
- The FPDF page calls, the latin-1 encoding and the CSV bytes (app.py:97, 101-111) are not modelled, because they are byte output through libraries. The document is a sequence of lines: a title, then name, revenue and ROAS per line. Re-parsing the exported CSV is therefore not modelled either.
- `.round(2)` and the f-string number formats (app.py:62-63, 71, 86, 92, 107) are not modelled. Revenue, payout and ratios are exact reals, and floating-point rounding is not modelled.
- Columns.Lower: lower-cases the ASCII letters only. Python's `str.lower()` also folds non-ASCII letters.
- `orders`, `likes` and `comments` are 64-bit integer columns in pandas, and the model's integers are unbounded. Overflow of their sums is not modelled.
- Pandas' `_x`/`_y` suffixing of the columns that tracking and influencers share (such as `platform`) is not modelled. The records keep distinct fields, and the platform filter reads the tracking row's platform.
- The model promises no order for the groups before the revenue sort (`groupby` sorts keys by default). The sort that follows is not stable, so nothing downstream depends on that order. `Seqs.SortDesc` is a concrete sort, and no contract or lemma relies on its tie order.
- Seqs.SortDesc: states order and permutation but not the pandas tie order, because quicksort's tie order is not part of pandas' contract.
- Engagement.TopPostsSpec: does not say which of several posts with equal engagement make the top 10, for the same reason.
- The added `engagement` column and the `ROAS` column live in the model as the `Score` function and the `roas` field of a group entry. They are not in-place column writes.
- The `index += 1` ranking (app.py:69) is modelled as the `Rank` function over the sorted entries. It is not an in-place index update.
- Missing columns in an uploaded table (the script would stop with a key error) are not modelled. The records always carry every field.
