/**
  The left joins on `influencer_id`: `df.merge(other, on="influencer_id",
  how="left")`. The left table drives: each of its rows is followed, in
  order, by one output row per matching right row, or by a single row with
  a null right side when nothing matches.
*/
module Join {
  import opened Wrappers
  import opened Tables

  /** The rows of `right` whose key is `k`, in table order (`MatchesCounts`: each as often as `right` holds it). */
  function Matches<R(!new)>(right: seq<R>, rkey: R -> string, k: string): (ms: seq<R>)
    ensures |ms| <= |right|
    ensures forall m :: m in ms <==> m in right && rkey(m) == k
  {
    if right == [] then []
    else
      assert forall m :: m in right <==> m == right[0] || m in right[1..];
      (if rkey(right[0]) == k then [right[0]] else []) + Matches(right[1..], rkey, k)
  }

  /** A key's matches hold every right row with that key as often as the table does, and no other row. */
  lemma {:induction false} MatchesCounts<R(!new)>(right: seq<R>, rkey: R -> string, k: string)
    ensures forall m :: multiset(Matches(right, rkey, k))[m] == if rkey(m) == k then multiset(right)[m] else 0
  {
    if right != [] {
      MatchesCounts(right[1..], rkey, k);
      assert right == [right[0]] + right[1..];
    }
  }

  function Max1(n: nat): nat
  {
    if n == 0 then 1 else n
  }

  /** The right-hand cells a left row is paired with: each match, or one null. */
  function Padded<R(!new)>(ms: seq<R>): (os: seq<Option<R>>)
    ensures |os| == Max1(|ms|)
    ensures ms == [] ==> os == [None]
    ensures forall i :: 0 <= i < |ms| ==> os[i] == Some(ms[i])
    ensures forall o :: o in os ==> (o.None? <==> ms == []) && (o.Some? ==> o.value in ms)
  {
    if ms == [] then [None] else seq(|ms|, i requires 0 <= i < |ms| => Some(ms[i]))
  }

  function Pair<L(!new), R(!new)>(l: L, os: seq<Option<R>>): (ps: seq<(L, Option<R>)>)
    ensures |ps| == |os|
    ensures forall i :: 0 <= i < |ps| ==> ps[i] == (l, os[i])
  {
    seq(|os|, i requires 0 <= i < |os| => (l, os[i]))
  }

  /**
    Left join of `left` with `right`. Every output row comes from a left
    row; its right side is a right row with the same key, or null exactly
    when no right row has that key; every left row and every matching pair
    of rows is in the output.
  */
  function LeftJoin<L(!new), R(!new)>(left: seq<L>, right: seq<R>, lkey: L -> string, rkey: R -> string): (out: seq<(L, Option<R>)>)
    ensures |out| >= |left|
    ensures forall p :: p in out ==> p.0 in left
    ensures forall p :: p in out && p.1.Some? ==> p.1.value in right && rkey(p.1.value) == lkey(p.0)
    ensures forall p :: p in out && p.1.None? ==> forall m :: m in right ==> rkey(m) != lkey(p.0)
    ensures forall l, m :: l in left && m in right && rkey(m) == lkey(l) ==> (l, Some(m)) in out
    ensures forall l :: l in left && (forall m :: m in right ==> rkey(m) != lkey(l)) ==> (l, None) in out
  {
    if left == [] then []
    else
      var ms := Matches(right, rkey, lkey(left[0]));
      var head := Pair(left[0], Padded(ms));
      var rest := LeftJoin(left[1..], right, lkey, rkey);
      assert forall l :: l in left <==> l == left[0] || l in left[1..];
      assert forall m :: m in right && rkey(m) == lkey(left[0]) ==> (left[0], Some(m)) in head by {
        forall m | m in right && rkey(m) == lkey(left[0]) ensures (left[0], Some(m)) in head {
          var i :| 0 <= i < |ms| && ms[i] == m;
          assert head[i] == (left[0], Some(m));
        }
      }
      assert (forall m :: m in right ==> rkey(m) != lkey(left[0])) ==> head[0] == (left[0], None);
      head + rest
  }

  /** A left row reaches the output, matched or not. */
  lemma LeftJoinKeeps<L(!new), R(!new)>(l: L, left: seq<L>, right: seq<R>, lkey: L -> string, rkey: R -> string)
    requires l in left
    ensures exists o :: (l, o) in LeftJoin(left, right, lkey, rkey)
  {
    if m :| m in right && rkey(m) == lkey(l) {
      assert (l, Some(m)) in LeftJoin(left, right, lkey, rkey);
    } else {
      assert (l, None) in LeftJoin(left, right, lkey, rkey);
    }
  }

  /** The first left row's block, then the join of the rest. */
  lemma LeftJoinFirst<L(!new), R(!new)>(left: seq<L>, right: seq<R>, lkey: L -> string, rkey: R -> string)
    requires left != []
    ensures LeftJoin(left, right, lkey, rkey) ==
      Pair(left[0], Padded(Matches(right, rkey, lkey(left[0])))) + LeftJoin(left[1..], right, lkey, rkey)
  {
  }

  lemma LeftJoinAppendEmpty<L(!new), R(!new)>(a: seq<L>, b: seq<L>, right: seq<R>, lkey: L -> string, rkey: R -> string)
    requires a == []
    ensures LeftJoin(a + b, right, lkey, rkey) == LeftJoin(a, right, lkey, rkey) + LeftJoin(b, right, lkey, rkey)
  {
    assert a + b == b;
  }

  /** The first row of `a` leads the join of `a + b`. */
  lemma LeftJoinConsAppend<L(!new), R(!new)>(a: seq<L>, b: seq<L>, right: seq<R>, lkey: L -> string, rkey: R -> string)
    requires a != []
    ensures LeftJoin(a + b, right, lkey, rkey) ==
      Pair(a[0], Padded(Matches(right, rkey, lkey(a[0])))) + LeftJoin(a[1..] + b, right, lkey, rkey)
  {
    assert (a + b)[0] == a[0];
    assert (a + b)[1..] == a[1..] + b;
    LeftJoinFirst(a + b, right, lkey, rkey);
  }

  lemma Regroup<T>(u: seq<T>, v: seq<T>, h: seq<T>, x: seq<T>, y: seq<T>)
    requires u == h + (x + y)
    requires v == h + x
    ensures u == v + y
  {
  }

  /** The inductive step of `LeftJoinAppend`: from the tail of `a` to the whole of it. */
  lemma LeftJoinAppendStep<L(!new), R(!new)>(a: seq<L>, b: seq<L>, right: seq<R>, lkey: L -> string, rkey: R -> string)
    requires a != []
    requires LeftJoin(a[1..] + b, right, lkey, rkey) == LeftJoin(a[1..], right, lkey, rkey) + LeftJoin(b, right, lkey, rkey)
    ensures LeftJoin(a + b, right, lkey, rkey) == LeftJoin(a, right, lkey, rkey) + LeftJoin(b, right, lkey, rkey)
  {
    var h := Pair(a[0], Padded(Matches(right, rkey, lkey(a[0]))));
    var x, y := LeftJoin(a[1..], right, lkey, rkey), LeftJoin(b, right, lkey, rkey);
    LeftJoinConsAppend(a, b, right, lkey, rkey);
    LeftJoinFirst(a, right, lkey, rkey);
    Regroup(LeftJoin(a + b, right, lkey, rkey), LeftJoin(a, right, lkey, rkey), h, x, y);
  }

  /** Joining a concatenation joins each part. */
  lemma {:induction false} LeftJoinAppend<L(!new), R(!new)>(a: seq<L>, b: seq<L>, right: seq<R>, lkey: L -> string, rkey: R -> string)
    ensures LeftJoin(a + b, right, lkey, rkey) == LeftJoin(a, right, lkey, rkey) + LeftJoin(b, right, lkey, rkey)
  {
    if a == [] {
      LeftJoinAppendEmpty(a, b, right, lkey, rkey);
    } else {
      LeftJoinAppend(a[1..], b, right, lkey, rkey);
      LeftJoinAppendStep(a, b, right, lkey, rkey);
    }
  }

  /** No two rows of `right` share a key. */
  ghost predicate UniqueKeys<R(!new)>(right: seq<R>, rkey: R -> string)
  {
    forall i, j :: 0 <= i < j < |right| ==> rkey(right[i]) != rkey(right[j])
  }

  /** The right row with key `k`, if there is one (the first, if several). */
  function Lookup<R(!new)>(right: seq<R>, rkey: R -> string, k: string): Option<R>
  {
    var ms := Matches(right, rkey, k);
    if ms == [] then None else Some(ms[0])
  }

  lemma {:induction false} NoMatches<R(!new)>(right: seq<R>, rkey: R -> string, k: string)
    requires forall m :: m in right ==> rkey(m) != k
    ensures Matches(right, rkey, k) == []
  {
    if right != [] {
      NoMatches(right[1..], rkey, k);
    }
  }

  /** With unique keys there is at most one match. */
  lemma {:induction false} UniqueMatches<R(!new)>(right: seq<R>, rkey: R -> string, k: string)
    requires UniqueKeys(right, rkey)
    ensures |Matches(right, rkey, k)| <= 1
  {
    if right != [] {
      assert UniqueKeys(right[1..], rkey) by {
        forall i, j | 0 <= i < j < |right[1..]| ensures rkey(right[1..][i]) != rkey(right[1..][j]) {
          assert right[1..][i] == right[i + 1] && right[1..][j] == right[j + 1];
        }
      }
      UniqueMatches(right[1..], rkey, k);
      if rkey(right[0]) == k {
        forall j | 0 <= j < |right[1..]| ensures rkey(right[1..][j]) != k {
          assert right[1..][j] == right[j + 1];
        }
        NoMatches(right[1..], rkey, k);
      }
    }
  }

  /**
    When the right table's keys are unique the join neither adds nor drops
    rows: output row `i` is left row `i` with its one match or null.
  */
  lemma {:induction false} LeftJoinUnique<L(!new), R(!new)>(left: seq<L>, right: seq<R>, lkey: L -> string, rkey: R -> string)
    requires UniqueKeys(right, rkey)
    ensures |LeftJoin(left, right, lkey, rkey)| == |left|
    ensures forall i :: 0 <= i < |left| ==>
      LeftJoin(left, right, lkey, rkey)[i] == (left[i], Lookup(right, rkey, lkey(left[i])))
  {
    if left != [] {
      var ms := Matches(right, rkey, lkey(left[0]));
      UniqueMatches(right, rkey, lkey(left[0]));
      assert Padded(ms) == [Lookup(right, rkey, lkey(left[0]))];
      var rest := LeftJoin(left[1..], right, lkey, rkey);
      var out := LeftJoin(left, right, lkey, rkey);
      assert out == [(left[0], Lookup(right, rkey, lkey(left[0])))] + rest;
      LeftJoinUnique(left[1..], right, lkey, rkey);
      forall i | 0 <= i < |left| ensures out[i] == (left[i], Lookup(right, rkey, lkey(left[i]))) {
        if i > 0 {
          assert out[i] == rest[i - 1];
          assert left[1..][i - 1] == left[i];
        }
      }
    }
  }

  function TrackKey(t: Tracking): string { t.influencerId }
  function InfKey(i: Influencer): string { i.influencerId }
  function PayKey(p: Payout): string { p.influencerId }
  function HalfKey(h: (Tracking, Option<Influencer>)): string { h.0.influencerId }

  /** Spreads the nested pairs of the second join into the joined record. */
  function Flatten(ps: seq<((Tracking, Option<Influencer>), Option<Payout>)>): (rows: seq<JoinedRow>)
    ensures |rows| == |ps|
    ensures forall i :: 0 <= i < |ps| ==> rows[i] == JoinedRow(ps[i].0.0, ps[i].0.1, ps[i].1)
  {
    seq(|ps|, i requires 0 <= i < |ps| => JoinedRow(ps[i].0.0, ps[i].0.1, ps[i].1))
  }

  lemma FlattenAppend(a: seq<((Tracking, Option<Influencer>), Option<Payout>)>, b: seq<((Tracking, Option<Influencer>), Option<Payout>)>)
    ensures Flatten(a + b) == Flatten(a) + Flatten(b)
  {
  }

  /**
    app.py lines 35-36: tracking left-joined with the influencers, the
    result left-joined with the payouts, both on `influencer_id`.
  */
  function Merge(tracks: seq<Tracking>, infs: seq<Influencer>, pays: seq<Payout>): seq<JoinedRow>
  {
    Flatten(LeftJoin(LeftJoin(tracks, infs, TrackKey, InfKey), pays, HalfKey, PayKey))
  }

  /**
    What the joins keep: every joined row carries a tracking row read from
    the tracking table, unchanged (so its `orders` is the tracking orders),
    and an influencer or payout row with the same `influencer_id` read from
    its table (so `payoutOrders` is recoverable beside it), or null exactly
    when that table has no row for the id.
  */
  lemma MergeRows(tracks: seq<Tracking>, infs: seq<Influencer>, pays: seq<Payout>)
    ensures forall r :: r in Merge(tracks, infs, pays) ==> JoinedFrom(r, tracks, infs, pays)
  {
    var half := LeftJoin(tracks, infs, TrackKey, InfKey);
    var full := LeftJoin(half, pays, HalfKey, PayKey);
    var rows := Flatten(full);
    forall r | r in rows ensures JoinedFrom(r, tracks, infs, pays) {
      var k :| 0 <= k < |rows| && rows[k] == r;
      JoinedPairFrom(full[k], tracks, infs, pays);
    }
  }

  /** A joined row built from the three tables as a left join builds it. */
  ghost predicate JoinedFrom(r: JoinedRow, tracks: seq<Tracking>, infs: seq<Influencer>, pays: seq<Payout>)
  {
    && r.track in tracks
    && (r.inf.Some? ==> r.inf.value in infs && r.inf.value.influencerId == r.track.influencerId)
    && (r.pay.Some? ==> r.pay.value in pays && r.pay.value.influencerId == r.track.influencerId)
    && (r.inf.None? ==> forall i :: i in infs ==> i.influencerId != r.track.influencerId)
    && (r.pay.None? ==> forall p :: p in pays ==> p.influencerId != r.track.influencerId)
  }

  lemma JoinedPairFrom(f: ((Tracking, Option<Influencer>), Option<Payout>), tracks: seq<Tracking>, infs: seq<Influencer>, pays: seq<Payout>)
    requires f in LeftJoin(LeftJoin(tracks, infs, TrackKey, InfKey), pays, HalfKey, PayKey)
    ensures JoinedFrom(JoinedRow(f.0.0, f.0.1, f.1), tracks, infs, pays)
  {
    var half := LeftJoin(tracks, infs, TrackKey, InfKey);
    assert f.0 in half;
  }

  /** No tracking row is dropped by the joins. */
  lemma MergeKeepsTracking(tracks: seq<Tracking>, infs: seq<Influencer>, pays: seq<Payout>)
    ensures forall t :: t in tracks ==> exists r :: r in Merge(tracks, infs, pays) && r.track == t
  {
    var half := LeftJoin(tracks, infs, TrackKey, InfKey);
    var full := LeftJoin(half, pays, HalfKey, PayKey);
    var rows := Flatten(full);
    forall t | t in tracks ensures exists r :: r in rows && r.track == t {
      LeftJoinKeeps(t, tracks, infs, TrackKey, InfKey);
      var o :| (t, o) in half;
      LeftJoinKeeps((t, o), half, pays, HalfKey, PayKey);
      var o2 :| ((t, o), o2) in full;
      var k :| 0 <= k < |full| && full[k] == ((t, o), o2);
      assert rows[k].track == t;
    }
  }

  /**
    With unique `influencer_id`s in the influencer and payout tables the
    joined table has exactly the tracking rows, in tracking order, each
    beside its influencer and payout row or null.
  */
  lemma MergeUnique(tracks: seq<Tracking>, infs: seq<Influencer>, pays: seq<Payout>)
    requires UniqueKeys(infs, InfKey) && UniqueKeys(pays, PayKey)
    ensures |Merge(tracks, infs, pays)| == |tracks|
    ensures forall i :: 0 <= i < |tracks| ==>
      Merge(tracks, infs, pays)[i] == JoinedRow(tracks[i], Lookup(infs, InfKey, tracks[i].influencerId), Lookup(pays, PayKey, tracks[i].influencerId))
  {
    var half := LeftJoin(tracks, infs, TrackKey, InfKey);
    LeftJoinUnique(tracks, infs, TrackKey, InfKey);
    LeftJoinUnique(half, pays, HalfKey, PayKey);
  }

  /** The joined rows of one tracking row: every influencer match crossed with every payout match. */
  function Cross(t: Tracking, opts: seq<Option<Influencer>>, ps: seq<Option<Payout>>): (rows: seq<JoinedRow>)
    ensures |rows| == |opts| * |ps|
    ensures forall r :: r in rows ==> r.track == t
  {
    if opts == [] then []
    else
      var row := seq(|ps|, j requires 0 <= j < |ps| => JoinedRow(t, opts[0], ps[j]));
      var rest := Cross(t, opts[1..], ps);
      assert |row + rest| == |ps| + (|opts| - 1) * |ps| == |opts| * |ps|;
      row + rest
  }

  /** How many joined rows one tracking row becomes. */
  function Fanout(t: Tracking, infs: seq<Influencer>, pays: seq<Payout>): nat
  {
    Max1(|Matches(infs, InfKey, t.influencerId)|) * Max1(|Matches(pays, PayKey, t.influencerId)|)
  }

  /** The reference join: tracking rows in order, each expanded into its block. */
  function Blocks(tracks: seq<Tracking>, infs: seq<Influencer>, pays: seq<Payout>): seq<JoinedRow>
  {
    if tracks == [] then []
    else
      Cross(tracks[0], Padded(Matches(infs, InfKey, tracks[0].influencerId)), Padded(Matches(pays, PayKey, tracks[0].influencerId)))
      + Blocks(tracks[1..], infs, pays)
  }

  function FanoutSum(tracks: seq<Tracking>, infs: seq<Influencer>, pays: seq<Payout>): nat
  {
    if tracks == [] then 0 else Fanout(tracks[0], infs, pays) + FanoutSum(tracks[1..], infs, pays)
  }

  /** The second join applied to one tracking row's first-join rows yields its block. */
  lemma {:induction false} SecondJoinBlock(t: Tracking, opts: seq<Option<Influencer>>, pays: seq<Payout>)
    ensures Flatten(LeftJoin(Pair(t, opts), pays, HalfKey, PayKey))
         == Cross(t, opts, Padded(Matches(pays, PayKey, t.influencerId)))
  {
    if opts != [] {
      var ps := Padded(Matches(pays, PayKey, t.influencerId));
      var p := Pair(t, opts);
      assert p == [(t, opts[0])] + Pair(t, opts[1..]);
      assert p[0] == (t, opts[0]) && p[1..] == Pair(t, opts[1..]);
      var first := Pair((t, opts[0]), Padded(Matches(pays, PayKey, HalfKey((t, opts[0])))));
      assert LeftJoin(p, pays, HalfKey, PayKey) == first + LeftJoin(Pair(t, opts[1..]), pays, HalfKey, PayKey);
      FlattenAppend(first, LeftJoin(Pair(t, opts[1..]), pays, HalfKey, PayKey));
      SecondJoinBlock(t, opts[1..], pays);
      assert Flatten(first) == seq(|ps|, j requires 0 <= j < |ps| => JoinedRow(t, opts[0], ps[j]));
    }
  }

  /**
    The two joins equal the reference: tracking rows stay in order and each
    tracking row `t` becomes a block of (influencer matches, at least 1) x
    (payout matches, at least 1) rows, all carrying `t`.
  */
  lemma {:induction false} MergeIsBlocks(tracks: seq<Tracking>, infs: seq<Influencer>, pays: seq<Payout>)
    ensures Merge(tracks, infs, pays) == Blocks(tracks, infs, pays)
    ensures |Merge(tracks, infs, pays)| == FanoutSum(tracks, infs, pays)
  {
    if tracks != [] {
      var t := tracks[0];
      var opts := Padded(Matches(infs, InfKey, t.influencerId));
      var half := LeftJoin(tracks, infs, TrackKey, InfKey);
      var restHalf := LeftJoin(tracks[1..], infs, TrackKey, InfKey);
      assert half == Pair(t, opts) + restHalf;
      LeftJoinAppend(Pair(t, opts), restHalf, pays, HalfKey, PayKey);
      FlattenAppend(LeftJoin(Pair(t, opts), pays, HalfKey, PayKey), LeftJoin(restHalf, pays, HalfKey, PayKey));
      SecondJoinBlock(t, opts, pays);
      MergeIsBlocks(tracks[1..], infs, pays);
    }
  }
}
