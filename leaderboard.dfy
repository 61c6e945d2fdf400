/**
  The influencer leaderboard (app.py lines 66-70) and the poor-ROI list
  (line 84). Filtered rows are grouped by (influencer id, name); rows whose
  name is null (no influencer match, or a blank name) belong to no group,
  as `groupby` drops null keys. Each group's orders, revenue and payout are
  summed, its ROAS is the unguarded ratio revenue / payout, and the groups
  are sorted by revenue, highest first, and ranked from 1. The sort is not
  stable, so no order among equal revenues is promised.
*/
module Leaderboard {
  import opened Wrappers
  import opened Tables
  import opened Seqs
  import opened Metrics

  datatype GroupKey = GroupKey(influencerId: string, name: string)

  /** The aggregated row of one group. */
  datatype Entry = Entry(key: GroupKey, totals: Totals, roas: Ratio)

  /** A leaderboard row: its 1-based rank and its entry. */
  datatype Ranked = Ranked(rank: nat, entry: Entry)

  /** The group a row falls in; none when its name is null. */
  function KeyOf(r: JoinedRow): Option<GroupKey>
  {
    if r.inf.Some? && r.inf.value.name.Some? then
      Some(GroupKey(r.track.influencerId, r.inf.value.name.value))
    else
      None
  }

  /** The rows of group `k`, in table order (`MembersCounts`: each as often as the table holds it). */
  function Members(rows: seq<JoinedRow>, k: GroupKey): (ms: seq<JoinedRow>)
    ensures forall r :: r in ms <==> r in rows && KeyOf(r) == Some(k)
  {
    if rows == [] then []
    else
      assert forall r :: r in rows <==> r == rows[0] || r in rows[1..];
      (if KeyOf(rows[0]) == Some(k) then [rows[0]] else []) + Members(rows[1..], k)
  }

  /** A group holds every row with its key as often as the table does, and no other row. */
  lemma {:induction false} MembersCounts(rows: seq<JoinedRow>, k: GroupKey)
    ensures forall r :: multiset(Members(rows, k))[r] == if KeyOf(r) == Some(k) then multiset(rows)[r] else 0
  {
    if rows != [] {
      MembersCounts(rows[1..], k);
      assert rows == [rows[0]] + rows[1..];
    }
  }

  /** The rows that belong to some group. */
  function Named(rows: seq<JoinedRow>): (ns: seq<JoinedRow>)
  {
    if rows == [] then []
    else
      (if KeyOf(rows[0]).Some? then [rows[0]] else []) + Named(rows[1..])
  }

  /** The rows `groupby` drops: those with a null name. */
  function Unnamed(rows: seq<JoinedRow>): (us: seq<JoinedRow>)
  {
    if rows == [] then []
    else
      (if KeyOf(rows[0]).None? then [rows[0]] else []) + Unnamed(rows[1..])
  }

  /** The distinct group keys present in `rows`, each once. */
  function KeysOf(rows: seq<JoinedRow>): (ks: seq<GroupKey>)
    ensures NoDup(ks)
    ensures forall k :: k in ks <==> exists r :: r in rows && KeyOf(r) == Some(k)
  {
    if rows == [] then []
    else
      var rest := KeysOf(rows[1..]);
      assert forall r :: r in rows <==> r == rows[0] || r in rows[1..];
      match KeyOf(rows[0])
      case None => rest
      case Some(k) =>
        if k in rest then rest
        else
          assert NoDup([k] + rest) by {
            forall i, j | 0 <= i < j < |[k] + rest| ensures ([k] + rest)[i] != ([k] + rest)[j] {
              assert ([k] + rest)[j] == rest[j - 1];
              if i > 0 {
                assert ([k] + rest)[i] == rest[i - 1];
              }
            }
          }
          [k] + rest
  }

  /** The aggregated row of group `k`: its sums and revenue / payout. */
  function Aggregate(rows: seq<JoinedRow>, k: GroupKey): Entry
  {
    var t := Sum(Members(rows, k));
    Entry(k, t, Divide(t.revenue, t.payout))
  }

  function GroupsOf(rows: seq<JoinedRow>, ks: seq<GroupKey>): (es: seq<Entry>)
    ensures |es| == |ks|
    ensures forall i :: 0 <= i < |ks| ==> es[i] == Aggregate(rows, ks[i])
  {
    seq(|ks|, i requires 0 <= i < |ks| => Aggregate(rows, ks[i]))
  }

  /** `groupby(['influencer_id', 'name']).sum()` with the ROAS column added. */
  function Groups(rows: seq<JoinedRow>): seq<Entry>
  {
    GroupsOf(rows, KeysOf(rows))
  }

  function RevenueKey(e: Entry): real
  {
    e.totals.revenue
  }

  /** `index += 1`: entry `i` of the sorted table gets rank `i + 1`. */
  function Rank(es: seq<Entry>): (rs: seq<Ranked>)
    ensures |rs| == |es|
    ensures forall i :: 0 <= i < |es| ==> rs[i] == Ranked(i + 1, es[i])
  {
    seq(|es|, i requires 0 <= i < |es| => Ranked(i + 1, es[i]))
  }

  function EntriesOf(board: seq<Ranked>): (es: seq<Entry>)
    ensures |es| == |board|
    ensures forall i :: 0 <= i < |board| ==> es[i] == board[i].entry
  {
    seq(|board|, i requires 0 <= i < |board| => board[i].entry)
  }

  /** The leaderboard of the filtered rows. */
  function Board(rows: seq<JoinedRow>): seq<Ranked>
  {
    Rank(SortDesc(Groups(rows), RevenueKey))
  }

  /**
    The leaderboard's order: ranks run 1, 2, ..., n down the table and
    revenue never increases from one rank to the next.
  */
  lemma BoardOrder(rows: seq<JoinedRow>)
    ensures forall i :: 0 <= i < |Board(rows)| ==> Board(rows)[i].rank == i + 1
    ensures forall i, j :: 0 <= i < j < |Board(rows)| ==>
      Board(rows)[i].entry.totals.revenue >= Board(rows)[j].entry.totals.revenue
  {
    var sorted := SortDesc(Groups(rows), RevenueKey);
    forall i, j | 0 <= i < j < |Board(rows)|
      ensures Board(rows)[i].entry.totals.revenue >= Board(rows)[j].entry.totals.revenue
    {
      assert RevenueKey(sorted[i]) >= RevenueKey(sorted[j]);
    }
  }

  /** A group's row carries its key's aggregate, and its key is one found in the rows. */
  lemma InGroups(rows: seq<JoinedRow>, e: Entry)
    requires e in Groups(rows)
    ensures e == Aggregate(rows, e.key) && e.key in KeysOf(rows)
  {
    var ks := KeysOf(rows);
    var i :| 0 <= i < |ks| && Groups(rows)[i] == e;
  }

  lemma GroupsNoDup(rows: seq<JoinedRow>)
    ensures NoDup(Groups(rows))
  {
    var ks, groups := KeysOf(rows), Groups(rows);
    forall i, j | 0 <= i < j < |groups| ensures groups[i] != groups[j] {
      assert groups[i].key == ks[i] && groups[j].key == ks[j];
    }
  }

  /** The sorted groups, before ranking: a permutation of the groups. */
  lemma SortedGroups(rows: seq<JoinedRow>)
    ensures EntriesOf(Board(rows)) == SortDesc(Groups(rows), RevenueKey)
    ensures multiset(EntriesOf(Board(rows))) == multiset(Groups(rows))
    ensures |Board(rows)| == |KeysOf(rows)|
  {
    var sorted := SortDesc(Groups(rows), RevenueKey);
    assert EntriesOf(Board(rows)) == sorted;
    assert |multiset(sorted)| == |multiset(Groups(rows))|;
  }

  /** Every leaderboard row is one of the groups. */
  lemma OnBoard(rows: seq<JoinedRow>, i: int)
    requires 0 <= i < |Board(rows)|
    ensures Board(rows)[i].entry in Groups(rows)
    ensures Board(rows)[i].entry == Aggregate(rows, Board(rows)[i].entry.key)
    ensures Board(rows)[i].entry.key in KeysOf(rows)
  {
    SortedGroups(rows);
    var es := EntriesOf(Board(rows));
    assert es[i] in multiset(es);
    InGroups(rows, es[i]);
  }

  /** No key is on the leaderboard twice. */
  lemma BoardKeysDistinct(rows: seq<JoinedRow>)
    ensures forall i, j :: 0 <= i < j < |Board(rows)| ==>
      Board(rows)[i].entry.key != Board(rows)[j].entry.key
  {
    var board := Board(rows);
    SortedGroups(rows);
    var es := EntriesOf(board);
    GroupsNoDup(rows);
    PermutationNoDup(es, Groups(rows));
    forall i, j | 0 <= i < j < |board| ensures board[i].entry.key != board[j].entry.key {
      OnBoard(rows, i);
      OnBoard(rows, j);
      assert es[i] != es[j];
    }
  }

  /** A key is on the leaderboard exactly when some row carries it. */
  lemma BoardKeys(rows: seq<JoinedRow>, k: GroupKey)
    ensures (exists i :: 0 <= i < |Board(rows)| && Board(rows)[i].entry.key == k) <==>
      (exists r :: r in rows && KeyOf(r) == Some(k))
  {
    var board := Board(rows);
    var groups := Groups(rows);
    var ks := KeysOf(rows);
    SortedGroups(rows);
    var es := EntriesOf(board);
    if k in ks {
      var i :| 0 <= i < |ks| && ks[i] == k;
      assert groups[i] in multiset(es);
      var j :| 0 <= j < |es| && es[j] == groups[i];
      assert board[j].entry.key == k;
    }
    if i :| 0 <= i < |board| && board[i].entry.key == k {
      OnBoard(rows, i);
    }
  }

  /**
    One leaderboard row per distinct (influencer id, non-null name) among
    the rows: the board holds the groups, permuted; no key appears twice; a
    key is on the board exactly when some row has it; and each row's sums
    and ROAS are those of its group.
  */
  lemma BoardGroups(rows: seq<JoinedRow>)
    ensures |Board(rows)| == |KeysOf(rows)|
    ensures multiset(EntriesOf(Board(rows))) == multiset(Groups(rows))
    ensures forall i :: 0 <= i < |Board(rows)| ==>
      Board(rows)[i].entry == Aggregate(rows, Board(rows)[i].entry.key)
    ensures forall i, j :: 0 <= i < j < |Board(rows)| ==>
      Board(rows)[i].entry.key != Board(rows)[j].entry.key
    ensures forall k :: (exists i :: 0 <= i < |Board(rows)| && Board(rows)[i].entry.key == k) <==>
      (exists r :: r in rows && KeyOf(r) == Some(k))
  {
    SortedGroups(rows);
    forall i | 0 <= i < |Board(rows)| ensures Board(rows)[i].entry == Aggregate(rows, Board(rows)[i].entry.key) {
      OnBoard(rows, i);
    }
    BoardKeysDistinct(rows);
    forall k ensures (exists i :: 0 <= i < |Board(rows)| && Board(rows)[i].entry.key == k) <==>
      (exists r :: r in rows && KeyOf(r) == Some(k))
    {
      BoardKeys(rows, k);
    }
  }

  /** Sum of the entries' totals. */
  function SumEntries(es: seq<Entry>): Totals
  {
    if es == [] then Zero else Plus(es[0].totals, SumEntries(es[1..]))
  }

  lemma {:induction false} SumEntriesAppend(a: seq<Entry>, b: seq<Entry>)
    ensures SumEntries(a + b) == Plus(SumEntries(a), SumEntries(b))
  {
    if a == [] {
      assert a + b == b;
    } else {
      assert (a + b)[0] == a[0];
      assert (a + b)[1..] == a[1..] + b;
      SumEntriesAppend(a[1..], b);
    }
  }

  lemma SumEntriesFirst(es: seq<Entry>)
    requires es != []
    ensures SumEntries(es) == Plus(es[0].totals, SumEntries(es[1..]))
  {
  }

  lemma SumEntriesNone(a: seq<Entry>, b: seq<Entry>)
    requires a == [] && multiset(a) == multiset(b)
    ensures SumEntries(a) == SumEntries(b)
  {
    assert |multiset(b)| == 0;
  }

  lemma SumEntriesSingle(x: Entry)
    ensures SumEntries([x]) == x.totals
  {
    SumEntriesFirst([x]);
    assert [x][1..] == [];
    PlusZero(x.totals);
  }

  /** Taking out the entry at `i` takes its totals out of the sum. */
  lemma SumEntriesAt(b: seq<Entry>, i: int)
    requires 0 <= i < |b|
    ensures SumEntries(b) == Plus(b[i].totals, SumEntries(b[..i] + b[i + 1..]))
  {
    var x := b[i];
    var pre, post := b[..i], b[i + 1..];
    assert b == (pre + [x]) + post;
    SumEntriesAppend(pre + [x], post);
    SumEntriesAppend(pre, [x]);
    SumEntriesSingle(x);
    SumEntriesAppend(pre, post);
    var p, t, q := SumEntries(pre), x.totals, SumEntries(post);
    PlusAssoc(p, t, q);
    PlusSwap(p, t, q);
  }

  /** Reordering entries leaves their totals unchanged. */
  lemma {:induction false} SumEntriesPermutation(a: seq<Entry>, b: seq<Entry>)
    requires multiset(a) == multiset(b)
    ensures SumEntries(a) == SumEntries(b)
    decreases |a|
  {
    if a == [] {
      SumEntriesNone(a, b);
    } else {
      var x := a[0];
      assert x in multiset(b);
      var i :| 0 <= i < |b| && b[i] == x;
      SumEntriesAt(b, i);
      RemoveAt(b, i);
      assert a == [x] + a[1..];
      assert multiset(a[1..]) == multiset(a) - multiset{x};
      SumEntriesPermutation(a[1..], b[..i] + b[i + 1..]);
      SumEntriesFirst(a);
    }
  }

  /** Totals of the groups of `ks` over `rows`. */
  function GroupSum(rows: seq<JoinedRow>, ks: seq<GroupKey>): Totals
  {
    if ks == [] then Zero else Plus(Sum(Members(rows, ks[0])), GroupSum(rows, ks[1..]))
  }

  lemma {:induction false} GroupSumIsSumEntries(rows: seq<JoinedRow>, ks: seq<GroupKey>)
    ensures SumEntries(GroupsOf(rows, ks)) == GroupSum(rows, ks)
  {
    var gs := GroupsOf(rows, ks);
    if ks == [] {
      assert gs == [];
    } else {
      assert gs[1..] == GroupsOf(rows, ks[1..]);
      assert gs[0].totals == Sum(Members(rows, ks[0]));
      assert SumEntries(gs) == Plus(gs[0].totals, SumEntries(gs[1..]));
      GroupSumIsSumEntries(rows, ks[1..]);
    }
  }

  lemma {:induction false} GroupSumEmpty(rows: seq<JoinedRow>, ks: seq<GroupKey>)
    requires rows == []
    ensures GroupSum(rows, ks) == Zero
  {
    if ks != [] {
      assert Members(rows, ks[0]) == [];
      GroupSumEmpty(rows, ks[1..]);
    }
  }

  /** What a row adds to group `k`: its totals if it belongs there. */
  function Pick(r: JoinedRow, k: GroupKey): Totals
  {
    if KeyOf(r) == Some(k) then RowTotals(r) else Zero
  }

  lemma MembersFirst(rows: seq<JoinedRow>, k: GroupKey)
    requires rows != []
    ensures Sum(Members(rows, k)) == Plus(Pick(rows[0], k), Sum(Members(rows[1..], k)))
  {
    var m := Members(rows[1..], k);
    if KeyOf(rows[0]) == Some(k) {
      assert Members(rows, k) == [rows[0]] + m;
      SumCons(rows[0], m);
    } else {
      assert Members(rows, k) == m by {
        assert [] + m == m;
      }
      PlusZero(Sum(m));
    }
  }

  /** What a row adds to the groups of `ks`: its totals if its key is in `ks`. */
  function Share(r: JoinedRow, ks: seq<GroupKey>): Totals
  {
    if KeyOf(r).Some? && KeyOf(r).value in ks then RowTotals(r) else Zero
  }

  /** How a row's share splits between the first key and the others. */
  lemma ShareFirst(r: JoinedRow, ks: seq<GroupKey>)
    requires NoDup(ks) && ks != []
    ensures Share(r, ks) == Plus(Pick(r, ks[0]), Share(r, ks[1..]))
  {
    NoDupTail(ks);
    var k, rest := ks[0], ks[1..];
    assert forall x :: x in ks <==> x == k || x in rest;
    if KeyOf(r) == Some(k) {
      assert Pick(r, k) == RowTotals(r) && Share(r, rest) == Zero;
      PlusZero(RowTotals(r));
    } else {
      assert Pick(r, k) == Zero && Share(r, ks) == Share(r, rest);
      PlusZero(Share(r, rest));
    }
  }

  lemma ShareNone(r: JoinedRow, ks: seq<GroupKey>)
    requires ks == []
    ensures Share(r, ks) == Zero
  {
  }

  /** The groups' totals over `rows`: the first row's share plus the rest's. */
  lemma {:induction false} GroupSumFirst(rows: seq<JoinedRow>, ks: seq<GroupKey>)
    requires rows != [] && NoDup(ks)
    ensures GroupSum(rows, ks) == Plus(Share(rows[0], ks), GroupSum(rows[1..], ks))
  {
    if ks == [] {
      ShareNone(rows[0], ks);
      PlusZero(Zero);
    } else {
      var k := ks[0];
      NoDupTail(ks);
      GroupSumFirst(rows, ks[1..]);
      MembersFirst(rows, k);
      ShareFirst(rows[0], ks);
      var p, m := Pick(rows[0], k), Sum(Members(rows[1..], k));
      var s, g := Share(rows[0], ks[1..]), GroupSum(rows[1..], ks[1..]);
      Interchange(p, m, s, g);
    }
  }

  lemma Interchange(a: Totals, b: Totals, c: Totals, d: Totals)
    ensures Plus(Plus(a, b), Plus(c, d)) == Plus(Plus(a, c), Plus(b, d))
  {
  }

  /** The named rows' totals: the first row's, if it is named, plus the rest's. */
  lemma NamedFirst(rows: seq<JoinedRow>)
    requires rows != []
    ensures Sum(Named(rows)) == Plus(if KeyOf(rows[0]).Some? then RowTotals(rows[0]) else Zero, Sum(Named(rows[1..])))
  {
    var n := Named(rows[1..]);
    if KeyOf(rows[0]).Some? {
      assert Named(rows) == [rows[0]] + n;
      SumCons(rows[0], n);
    } else {
      assert Named(rows) == n by {
        assert [] + n == n;
      }
      PlusZero(Sum(n));
    }
  }

  lemma NamedNone(rows: seq<JoinedRow>, ks: seq<GroupKey>)
    requires rows == []
    ensures GroupSum(rows, ks) == Sum(Named(rows))
  {
    GroupSumEmpty(rows, ks);
    assert Named(rows) == [];
  }

  /**
    The groups of a duplicate-free `ks` that covers every key in `rows`
    together hold exactly the totals of the named rows.
  */
  lemma {:induction false} GroupSumNamed(rows: seq<JoinedRow>, ks: seq<GroupKey>)
    requires NoDup(ks)
    requires forall r :: r in rows && KeyOf(r).Some? ==> KeyOf(r).value in ks
    ensures GroupSum(rows, ks) == Sum(Named(rows))
  {
    if rows == [] {
      NamedNone(rows, ks);
    } else {
      assert forall r :: r in rows[1..] ==> r in rows;
      assert rows[0] in rows;
      GroupSumFirst(rows, ks);
      GroupSumNamed(rows[1..], ks);
      NamedFirst(rows);
    }
  }

  /** Adding a first row to either side of a split of the remaining rows. */
  lemma SplitStep(rows: seq<JoinedRow>, n: seq<JoinedRow>, u: seq<JoinedRow>)
    requires rows != []
    requires Sum(rows[1..]) == Plus(Sum(n), Sum(u))
    ensures Sum(rows) == Plus(Sum([rows[0]] + n), Sum(u))
    ensures Sum(rows) == Plus(Sum(n), Sum([rows[0]] + u))
  {
    var r := rows[0];
    SumFirst(rows);
    SumCons(r, n);
    SumCons(r, u);
    PlusAssoc(RowTotals(r), Sum(n), Sum(u));
    PlusSwap(Sum(n), RowTotals(r), Sum(u));
  }

  lemma NamedKeeps(rows: seq<JoinedRow>)
    requires rows != [] && KeyOf(rows[0]).Some?
    requires Sum(rows) == Plus(Sum([rows[0]] + Named(rows[1..])), Sum(Unnamed(rows[1..])))
    ensures Sum(rows) == Plus(Sum(Named(rows)), Sum(Unnamed(rows)))
  {
    assert Named(rows) == [rows[0]] + Named(rows[1..]);
    assert Unnamed(rows) == Unnamed(rows[1..]) by {
      assert [] + Unnamed(rows[1..]) == Unnamed(rows[1..]);
    }
  }

  lemma UnnamedKeeps(rows: seq<JoinedRow>)
    requires rows != [] && KeyOf(rows[0]).None?
    requires Sum(rows) == Plus(Sum(Named(rows[1..])), Sum([rows[0]] + Unnamed(rows[1..])))
    ensures Sum(rows) == Plus(Sum(Named(rows)), Sum(Unnamed(rows)))
  {
    assert Named(rows) == Named(rows[1..]) by {
      assert [] + Named(rows[1..]) == Named(rows[1..]);
    }
    assert Unnamed(rows) == [rows[0]] + Unnamed(rows[1..]);
  }

  lemma NamedSplitEmpty(rows: seq<JoinedRow>)
    requires rows == []
    ensures Sum(rows) == Plus(Sum(Named(rows)), Sum(Unnamed(rows)))
  {
    assert Named(rows) == [] && Unnamed(rows) == [];
  }

  lemma {:induction false} NamedSplit(rows: seq<JoinedRow>)
    ensures Sum(rows) == Plus(Sum(Named(rows)), Sum(Unnamed(rows)))
  {
    if rows == [] {
      NamedSplitEmpty(rows);
    } else {
      var r, rest := rows[0], rows[1..];
      NamedSplit(rest);
      SplitStep(rows, Named(rest), Unnamed(rest));
      if KeyOf(r).Some? {
        NamedKeeps(rows);
      } else {
        UnnamedKeeps(rows);
      }
    }
  }

  /**
    No revenue, order or payout is lost or double-counted on the way to the
    leaderboard: its rows' totals add up to those of the named rows, and
    with the rows `groupby` drops (null name) to the KPI totals.
  */
  lemma BoardTotals(rows: seq<JoinedRow>)
    ensures SumEntries(EntriesOf(Board(rows))) == Sum(Named(rows))
    ensures Plus(SumEntries(EntriesOf(Board(rows))), Sum(Unnamed(rows))) == ComputeKpis(rows).totals
  {
    BoardGroups(rows);
    SumEntriesPermutation(EntriesOf(Board(rows)), Groups(rows));
    GroupSumIsSumEntries(rows, KeysOf(rows));
    GroupSumNamed(rows, KeysOf(rows));
    NamedSplit(rows);
  }

  /**
    `top_inf[top_inf['ROAS'] < 1]`: the leaderboard rows whose ROAS compares
    below 1, in leaderboard order; empty, not an error, when there are none.
  */
  function PoorRoi(board: seq<Ranked>): (p: seq<Ranked>)
    ensures forall x :: x in p <==> x in board && Below(x.entry.roas, 1.0)
    ensures Subseq(p, board)
    ensures (forall x :: x in board ==> !Below(x.entry.roas, 1.0)) ==> p == []
  {
    if board == [] then []
    else
      var rest := PoorRoi(board[1..]);
      assert forall x :: x in board <==> x == board[0] || x in board[1..];
      assert board == [board[0]] + board[1..];
      if Below(board[0].entry.roas, 1.0) then
        SubseqKeep(board[0], rest, board[1..]);
        [board[0]] + rest
      else
        SubseqDrop(board[0], rest, board[1..]);
        rest
  }

  /** One leaderboard row's ROAS against 1, when revenues are non-negative. */
  lemma PoorEntry(rows: seq<JoinedRow>, x: Ranked)
    requires forall r :: r in rows ==> r.track.revenue >= 0.0
    requires x in Board(rows)
    ensures Below(x.entry.roas, 1.0) ==>
      && x.entry.totals.payout != 0.0
      && x.entry.roas.Finite?
      && (x.entry.totals.payout > 0.0 ==> x.entry.totals.revenue < x.entry.totals.payout)
    ensures 0.0 < x.entry.totals.payout && x.entry.totals.revenue < x.entry.totals.payout ==>
      Below(x.entry.roas, 1.0)
  {
    var board := Board(rows);
    var i :| 0 <= i < |board| && board[i] == x;
    OnBoard(rows, i);
    var ms := Members(rows, x.entry.key);
    assert forall r :: r in ms ==> r in rows;
    SumRevenueNonNegative(ms);
    BelowOne(x.entry.totals.revenue, x.entry.totals.payout);
  }

  /**
    With non-negative revenues a zero-payout influencer (ROAS +inf or NaN)
    never shows as poor: every listed row has a non-zero payout, a finite
    ROAS, and, when its payout is positive, revenue below payout. Conversely
    every leaderboard row with positive payout above its revenue is listed.
  */
  lemma PoorRoiNonNegative(rows: seq<JoinedRow>)
    requires forall r :: r in rows ==> r.track.revenue >= 0.0
    ensures forall x :: x in PoorRoi(Board(rows)) ==>
      && x.entry.totals.payout != 0.0
      && x.entry.roas.Finite?
      && (x.entry.totals.payout > 0.0 ==> x.entry.totals.revenue < x.entry.totals.payout)
    ensures forall x :: x in Board(rows) && 0.0 < x.entry.totals.payout && x.entry.totals.revenue < x.entry.totals.payout ==>
      x in PoorRoi(Board(rows))
  {
    forall x | x in Board(rows) {
      PoorEntry(rows, x);
    }
  }
}
