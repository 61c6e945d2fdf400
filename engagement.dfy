/**
  Post engagement (app.py lines 75-78): the posts table is left-joined with
  the influencers' names, each post is scored by likes plus comments, and
  the ten posts with the highest score are listed, highest first. The sort
  is not stable, so which of several equally scored posts make the cut is
  not promised; that every listed post scores at least as high as every
  post left out is.
*/
module Engagement {
  import opened Wrappers
  import opened Tables
  import opened Seqs
  import Join

  /** A post with the name of its influencer, null when there is none. */
  datatype PostRow = PostRow(post: Post, name: Option<string>)

  /** How many posts the chart shows. */
  const TopCount: nat := 10

  function PostKey(p: Post): string { p.influencerId }

  function NameOf(o: Option<Influencer>): Option<string>
  {
    if o.Some? then o.value.name else None
  }

  /**
    Each joined pair as a post with its influencer's name: the matched
    influencer's name, or null when the post has no match.
  */
  function WithNames(joined: seq<(Post, Option<Influencer>)>): (rows: seq<PostRow>)
    ensures |rows| == |joined|
    ensures forall k :: 0 <= k < |joined| ==> rows[k].post == joined[k].0
    ensures forall k :: 0 <= k < |joined| && joined[k].1.Some? ==> rows[k].name == joined[k].1.value.name
    ensures forall k :: 0 <= k < |joined| && joined[k].1.None? ==> rows[k].name.None?
  {
    seq(|joined|, k requires 0 <= k < |joined| => PostRow(joined[k].0, NameOf(joined[k].1)))
  }

  /** `df_posts.merge(df_inf[['influencer_id', 'name']], how='left')`. */
  function JoinNames(posts: seq<Post>, infs: seq<Influencer>): seq<PostRow>
  {
    WithNames(Join.LeftJoin(posts, infs, PostKey, Join.InfKey))
  }

  /**
    The join keeps every post, adds none, pairs each post with the name of
    every influencer row that has its id, and gives a post a name only from
    such a row; a post whose id no influencer row has gets a null name.
  */
  lemma JoinNamesSpec(posts: seq<Post>, infs: seq<Influencer>)
    ensures |JoinNames(posts, infs)| >= |posts|
    ensures forall p :: p in posts ==> exists r :: r in JoinNames(posts, infs) && r.post == p
    ensures forall r :: r in JoinNames(posts, infs) ==> r.post in posts
    ensures forall r :: r in JoinNames(posts, infs) && r.name.Some? ==>
      exists i :: i in infs && i.influencerId == r.post.influencerId && i.name == r.name
    ensures forall r :: r in JoinNames(posts, infs) && (forall i :: i in infs ==> i.influencerId != r.post.influencerId) ==>
      r.name.None?
    ensures forall p, i :: p in posts && i in infs && i.influencerId == p.influencerId ==>
      PostRow(p, i.name) in JoinNames(posts, infs)
  {
    var joined := Join.LeftJoin(posts, infs, PostKey, Join.InfKey);
    var rows := JoinNames(posts, infs);
    forall p, i | p in posts && i in infs && i.influencerId == p.influencerId ensures PostRow(p, i.name) in rows {
      assert (p, Some(i)) in joined;
      var k :| 0 <= k < |joined| && joined[k] == (p, Some(i));
      assert rows[k] == PostRow(p, i.name);
    }
    forall p | p in posts ensures exists r :: r in rows && r.post == p {
      Join.LeftJoinKeeps(p, posts, infs, PostKey, Join.InfKey);
      var o :| (p, o) in joined;
      var k :| 0 <= k < |joined| && joined[k] == (p, o);
      assert rows[k] in rows;
    }
    forall r | r in rows
      ensures r.post in posts
      ensures r.name.Some? ==> exists i :: i in infs && i.influencerId == r.post.influencerId && i.name == r.name
      ensures (forall i :: i in infs ==> i.influencerId != r.post.influencerId) ==> r.name.None?
    {
      var k :| 0 <= k < |rows| && rows[k] == r;
      assert joined[k] in joined;
      if joined[k].1.Some? {
        assert joined[k].1.value in infs;
      }
    }
  }

  /**
    With influencer ids unique in the influencer table, the join keeps the
    posts one for one and in order, each with the name of the influencer
    row that has its id, or null when there is none.
  */
  lemma JoinNamesUnique(posts: seq<Post>, infs: seq<Influencer>)
    requires Join.UniqueKeys(infs, Join.InfKey)
    ensures |JoinNames(posts, infs)| == |posts|
    ensures forall k :: 0 <= k < |posts| ==> JoinNames(posts, infs)[k].post == posts[k]
    ensures forall k :: 0 <= k < |posts| ==>
      JoinNames(posts, infs)[k].name == NameOf(Join.Lookup(infs, Join.InfKey, posts[k].influencerId))
  {
    Join.LeftJoinUnique(posts, infs, PostKey, Join.InfKey);
  }

  /** `likes + comments`. */
  function Score(r: PostRow): int
  {
    r.post.likes + r.post.comments
  }

  function ScoreKey(r: PostRow): real
  {
    Score(r) as real
  }

  /** `sort_values(by='engagement', ascending=False).head(10)`. */
  function TopPosts(rows: seq<PostRow>): seq<PostRow>
  {
    Take(SortDesc(rows, ScoreKey), TopCount)
  }

  /** The list is a prefix of the sorted table; what it leaves out is the rest. */
  lemma TopPrefix(rows: seq<PostRow>)
    ensures |TopPosts(rows)| == if |rows| < TopCount then |rows| else TopCount
    ensures TopPosts(rows) == SortDesc(rows, ScoreKey)[..|TopPosts(rows)|]
    ensures multiset(rows) - multiset(TopPosts(rows)) == multiset(SortDesc(rows, ScoreKey)[|TopPosts(rows)|..])
    ensures multiset(TopPosts(rows)) <= multiset(rows)
  {
    var s := SortDesc(rows, ScoreKey);
    assert |s| == |rows| by {
      assert |multiset(s)| == |multiset(rows)|;
    }
    TakeSplit(s, TopCount);
  }

  lemma TopSorted(rows: seq<PostRow>, i: int, j: int)
    requires 0 <= i < j < |TopPosts(rows)|
    ensures Score(TopPosts(rows)[i]) >= Score(TopPosts(rows)[j])
  {
    TopPrefix(rows);
    var s := SortDesc(rows, ScoreKey);
    assert ScoreKey(s[i]) >= ScoreKey(s[j]);
  }

  lemma TopBeatsRest(rows: seq<PostRow>, p: PostRow, q: PostRow)
    requires p in TopPosts(rows) && q in multiset(rows) - multiset(TopPosts(rows))
    ensures Score(p) >= Score(q)
  {
    TopPrefix(rows);
    var s := SortDesc(rows, ScoreKey);
    var m := |TopPosts(rows)|;
    assert q in multiset(s[m..]);
    SortedCut(s, m, ScoreKey, p, q);
  }

  /**
    The top-posts list: min(10, n) posts, scores never increasing down the
    list, all drawn from the table, and each scoring at least as high as
    every post it leaves out.
  */
  lemma TopPostsSpec(rows: seq<PostRow>)
    ensures |TopPosts(rows)| == if |rows| < TopCount then |rows| else TopCount
    ensures forall i, j :: 0 <= i < j < |TopPosts(rows)| ==> Score(TopPosts(rows)[i]) >= Score(TopPosts(rows)[j])
    ensures multiset(TopPosts(rows)) <= multiset(rows)
    ensures forall p, q :: p in TopPosts(rows) && q in multiset(rows) - multiset(TopPosts(rows)) ==>
      Score(p) >= Score(q)
  {
    TopPrefix(rows);
    forall i, j | 0 <= i < j < |TopPosts(rows)| ensures Score(TopPosts(rows)[i]) >= Score(TopPosts(rows)[j]) {
      TopSorted(rows, i, j);
    }
    forall p, q | p in TopPosts(rows) && q in multiset(rows) - multiset(TopPosts(rows)) ensures Score(p) >= Score(q) {
      TopBeatsRest(rows, p, q);
    }
  }
}
