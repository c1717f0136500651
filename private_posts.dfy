/**
 * Positioning of private posts within their private topic, and the per-user
 * read marker that "mark as unread" rewinds.
 *
 * Posts of a topic are ordered by creation time, ties broken by id; the order
 * in which rows sit in the posts table, and the ids alone, do not matter.
 */
module PrivatePosts {
  import opened Wrappers
  import opened Records

  /** Thread order: creation time first, then id. */
  predicate Before(a: PrivatePost, b: PrivatePost)
  {
    a.createdAt < b.createdAt || (a.createdAt == b.createdAt && a.id < b.id)
  }

  /** Thread order is a strict order, total on posts with different ids. */
  lemma BeforeIsStrictTotalOrder(a: PrivatePost, b: PrivatePost, c: PrivatePost)
    ensures !Before(a, a)
    ensures Before(a, b) && Before(b, c) ==> Before(a, c)
    ensures a.id != b.id ==> Before(a, b) || Before(b, a)
  {
  }

  /** `q` is a post of `p`'s topic that comes before `p`. */
  predicate EarlierInTopic(q: PrivatePost, p: PrivatePost)
  {
    q.topic == p.topic && Before(q, p)
  }

  /** The posts table has one row per id. */
  ghost predicate UniqueIds(posts: seq<PrivatePost>)
  {
    forall i, j :: 0 <= i < j < |posts| ==> posts[i].id != posts[j].id
  }

  /** How many posts of the table come before `p` in `p`'s topic. */
  function CountBefore(posts: seq<PrivatePost>, p: PrivatePost): (n: nat)
    ensures n <= |posts|
    ensures n == 0 <==> forall q :: q in posts ==> !EarlierInTopic(q, p)
  {
    if posts == [] then 0
    else
      var init, last := posts[..|posts| - 1], posts[|posts| - 1];
      assert posts == init + [last];
      CountBefore(init, p) + (if EarlierInTopic(last, p) then 1 else 0)
  }

  /**
   * The 1-based page on which `p` is shown, `perPage` posts to a page: the
   * page that holds position CountBefore + 1 of the topic.
   */
  function Page(posts: seq<PrivatePost>, p: PrivatePost, perPage: nat): (r: nat)
    requires perPage > 0
    ensures r >= 1
    ensures (r - 1) * perPage <= CountBefore(posts, p) < r * perPage
  {
    1 + CountBefore(posts, p) / perPage
  }

  /** The post immediately preceding `p` in its topic, if there is one. */
  function Previous(posts: seq<PrivatePost>, p: PrivatePost): (r: Option<PrivatePost>)
    ensures r.Some? ==> r.value in posts && EarlierInTopic(r.value, p)
    ensures r.Some? ==> forall q :: q in posts && EarlierInTopic(q, p) ==> !Before(r.value, q)
    ensures r.None? <==> forall q :: q in posts ==> !EarlierInTopic(q, p)
  {
    if posts == [] then None
    else
      var init, last := posts[..|posts| - 1], posts[|posts| - 1];
      assert posts == init + [last];
      var rest := Previous(init, p);
      if EarlierInTopic(last, p) && (rest.None? || Before(rest.value, last)) then Some(last)
      else rest
  }

  lemma {:induction false} CountBeforeSplit(a: seq<PrivatePost>, b: seq<PrivatePost>, p: PrivatePost)
    ensures CountBefore(a + b, p) == CountBefore(a, p) + CountBefore(b, p)
    decreases |b|
  {
    if b == [] {
      assert a + b == a;
    } else {
      var b' := b[..|b| - 1];
      assert (a + b)[..|a + b| - 1] == a + b';
      CountBeforeSplit(a, b', p);
    }
  }

  /** The position of a post does not depend on the order of the rows in the posts table. */
  lemma {:induction false} CountBeforeIgnoresStorageOrder(xs: seq<PrivatePost>, ys: seq<PrivatePost>, p: PrivatePost)
    requires multiset(xs) == multiset(ys)
    ensures CountBefore(xs, p) == CountBefore(ys, p)
    decreases |xs|
  {
    if xs == [] {
      assert |multiset(ys)| == 0;
      assert ys == [];
    } else {
      var init, x := xs[..|xs| - 1], xs[|xs| - 1];
      assert xs == init + [x];
      assert x in multiset(ys);
      var k :| 0 <= k < |ys| && ys[k] == x;
      var rest := ys[..k] + ys[k + 1..];
      assert ys == ys[..k] + [x] + ys[k + 1..];
      assert multiset(ys) == multiset(rest) + multiset{x};
      assert multiset(xs) == multiset(init) + multiset{x};
      calc {
        multiset(init);
        multiset(xs) - multiset{x};
        multiset(ys) - multiset{x};
        multiset(rest);
      }
      CountBeforeIgnoresStorageOrder(init, rest, p);
      CountBeforeSplit(init, [x], p);
      CountBeforeSplit(ys[..k] + [x], ys[k + 1..], p);
      CountBeforeSplit(ys[..k], [x], p);
      CountBeforeSplit(ys[..k], ys[k + 1..], p);
      assert [x][..0] == [];
    }
  }

  /** Hence so does its page. */
  lemma PageIgnoresStorageOrder(xs: seq<PrivatePost>, ys: seq<PrivatePost>, p: PrivatePost, perPage: nat)
    requires perPage > 0
    requires multiset(xs) == multiset(ys)
    ensures Page(xs, p, perPage) == Page(ys, p, perPage)
  {
    CountBeforeIgnoresStorageOrder(xs, ys, p);
  }

  /** A later post of the same topic never has a smaller position, and a strictly larger one when the earlier post is in the table. */
  lemma {:induction false} CountBeforeMonotone(posts: seq<PrivatePost>, p: PrivatePost, q: PrivatePost)
    requires p.topic == q.topic && Before(p, q)
    ensures CountBefore(posts, p) <= CountBefore(posts, q)
    ensures p in posts ==> CountBefore(posts, p) < CountBefore(posts, q)
    decreases |posts|
  {
    if posts != [] {
      var init, last := posts[..|posts| - 1], posts[|posts| - 1];
      assert posts == init + [last];
      CountBeforeMonotone(init, p, q);
    }
  }

  /** Later posts of a topic are never on an earlier page. */
  lemma PageMonotone(posts: seq<PrivatePost>, p: PrivatePost, q: PrivatePost, perPage: nat)
    requires perPage > 0
    requires p.topic == q.topic && Before(p, q)
    ensures Page(posts, p, perPage) <= Page(posts, q, perPage)
  {
    CountBeforeMonotone(posts, p, q);
    var a, b := CountBefore(posts, p), CountBefore(posts, q);
    var ra, rb := Page(posts, p, perPage), Page(posts, q, perPage);
    if rb < ra {
      assert rb * perPage <= (ra - 1) * perPage by {
        assert rb <= ra - 1;
        MulMonotone(rb, ra - 1, perPage);
      }
    }
  }

  lemma MulMonotone(x: nat, y: nat, k: nat)
    requires x <= y
    ensures x * k <= y * k
  {
  }

  /** The first post of a topic is exactly the one with no preceding post. */
  lemma FirstPostHasNoPrevious(posts: seq<PrivatePost>, p: PrivatePost)
    ensures Previous(posts, p).None? <==> CountBefore(posts, p) == 0
  {
  }

  /** Number of rows of the table that carry `p`'s id, topic and creation time. */
  function CountSame(posts: seq<PrivatePost>, p: PrivatePost): nat
  {
    if posts == [] then 0
    else
      var last := posts[|posts| - 1];
      CountSame(posts[..|posts| - 1], p)
        + (if last.topic == p.topic && last.createdAt == p.createdAt && last.id == p.id then 1 else 0)
  }

  lemma {:induction false} CountSameUnique(posts: seq<PrivatePost>, p: PrivatePost)
    requires UniqueIds(posts)
    ensures p in posts ==> CountSame(posts, p) == 1
    ensures p !in posts ==> CountSame(posts, p) <= 1
    decreases |posts|
  {
    if posts != [] {
      var init, last := posts[..|posts| - 1], posts[|posts| - 1];
      assert posts == init + [last];
      CountSameUnique(init, p);
      if last.id == p.id && init != [] {
        forall q | q in init ensures q.id != p.id {
          var i :| 0 <= i < |init| && init[i] == q;
          assert posts[i] == q;
        }
        CountSameNone(init, p);
      }
    }
  }

  lemma {:induction false} CountSameNone(posts: seq<PrivatePost>, p: PrivatePost)
    requires forall q :: q in posts ==> q.id != p.id
    ensures CountSame(posts, p) == 0
    decreases |posts|
  {
    if posts != [] {
      var init := posts[..|posts| - 1];
      assert forall q :: q in init ==> q in posts;
      CountSameNone(init, p);
    }
  }

  /** The posts before `p` are exactly those before-or-equal to `r`, when `r` is `p`'s predecessor. */
  lemma {:induction false} CountBeforeThroughPrevious(posts: seq<PrivatePost>, all: seq<PrivatePost>,
                                                      p: PrivatePost, r: PrivatePost)
    requires forall q :: q in posts ==> q in all
    requires EarlierInTopic(r, p)
    requires forall q :: q in all && EarlierInTopic(q, p) ==> !Before(r, q)
    ensures CountBefore(posts, p) == CountBefore(posts, r) + CountSame(posts, r)
    decreases |posts|
  {
    if posts != [] {
      var init, last := posts[..|posts| - 1], posts[|posts| - 1];
      assert posts == init + [last];
      assert forall q :: q in init ==> q in posts;
      CountBeforeThroughPrevious(init, all, p, r);
      assert last in all;
    }
  }

  /**
   * In a table with one row per id, the preceding post sits exactly one
   * position before `p`: marking `p` unread rewinds the reader by one post.
   */
  lemma PreviousIsOnePositionEarlier(posts: seq<PrivatePost>, p: PrivatePost)
    requires UniqueIds(posts)
    requires Previous(posts, p).Some?
    ensures CountBefore(posts, p) == CountBefore(posts, Previous(posts, p).value) + 1
  {
    var r := Previous(posts, p).value;
    CountBeforeThroughPrevious(posts, posts, p, r);
    CountSameUnique(posts, r);
  }

  /** Read markers: for each (private topic, user), the time up to which the user has read. */
  type ReadStates = map<(TopicId, UserId), int>

  /**
   * The read markers after `user` marks `post` unread: the marker for the
   * post's topic is removed when the post is its topic's first, and otherwise
   * set, or created, at the creation time of the preceding post; every other
   * marker stays as it was.
   */
  function MarkedUnread(states: ReadStates, posts: seq<PrivatePost>, post: PrivatePost, user: UserId): (r: ReadStates)
    ensures (post.topic, user) in r <==> CountBefore(posts, post) > 0
    ensures (post.topic, user) in r ==>
              exists q :: q in posts && EarlierInTopic(q, post) && r[(post.topic, user)] == q.createdAt
    ensures (post.topic, user) in r ==>
              forall q :: q in posts && EarlierInTopic(q, post) ==> q.createdAt <= r[(post.topic, user)]
    ensures (post.topic, user) in r ==> r[(post.topic, user)] <= post.createdAt
    ensures |r| == if (post.topic, user) in states && CountBefore(posts, post) == 0 then |states| - 1
                   else if (post.topic, user) !in states && CountBefore(posts, post) > 0 then |states| + 1
                   else |states|
    ensures forall k :: k != (post.topic, user) ==> (k in r <==> k in states)
    ensures forall k :: k != (post.topic, user) && k in r ==> r[k] == states[k]
  {
    var key := (post.topic, user);
    match Previous(posts, post)
    case None =>
      RemoveSize(states, key);
      states - {key}
    case Some(q) =>
      UpdateSize(states, key, q.createdAt);
      states[key := q.createdAt]
  }

  lemma RemoveSize<K, V>(m: map<K, V>, k: K)
    ensures |m - {k}| == if k in m then |m| - 1 else |m|
  {
    if k in m {
      assert m.Keys == (m - {k}).Keys + {k};
    } else {
      assert m - {k} == m;
    }
  }

  lemma UpdateSize<K, V>(m: map<K, V>, k: K, v: V)
    ensures |m[k := v]| == if k in m then |m| else |m| + 1
  {
    if k in m {
      assert m[k := v].Keys == m.Keys;
    } else {
      assert m[k := v].Keys == m.Keys + {k};
    }
  }

  lemma CountBeforeSnoc(init: seq<PrivatePost>, last: PrivatePost, p: PrivatePost)
    ensures CountBefore(init + [last], p) == CountBefore(init, p) + if EarlierInTopic(last, p) then 1 else 0
  {
    assert (init + [last])[..|init|] == init;
  }

  lemma PreviousSnoc(init: seq<PrivatePost>, last: PrivatePost, p: PrivatePost)
    ensures Previous(init + [last], p) ==
            var rest := Previous(init, p);
            if EarlierInTopic(last, p) && (rest.None? || Before(rest.value, last)) then Some(last) else rest
  {
    assert (init + [last])[..|init|] == init;
  }

  // The examples of the private-post tests, one topic (7), timestamps in seconds.

  /** A topic's sole post is on page 1. */
  lemma PageOfSolePost()
    ensures var p := PrivatePost(100, 1, 7, 0);
            Page([p], p, 1) == 1
  {
    var p := PrivatePost(100, 1, 7, 0);
    CountBeforeSnoc([], p, p);
    assert [] + [p] == [p];
  }

  /** One earlier post moves it to page 2 at one post a page, but not at two. */
  lemma PageAfterOneEarlierPost()
    ensures var p, e := PrivatePost(100, 1, 7, 0), PrivatePost(99, 1, 7, -3600);
            Page([e, p], p, 1) == 2 && Page([e, p], p, 2) == 1
  {
    var p, e := PrivatePost(100, 1, 7, 0), PrivatePost(99, 1, 7, -3600);
    CountBeforeSnoc([], e, p);
    assert [] + [e] == [e];
    CountBeforeSnoc([e], p, p);
    assert [e] + [p] == [e, p];
    assert CountBefore([e, p], p) == 1;
  }

  /** Post 100, created after posts 101 and 99, is third in its topic: order is by time, not by id. */
  lemma PageByCreationTimeNotId()
    ensures var p, an, e := PrivatePost(100, 1, 7, 0), PrivatePost(101, 1, 7, -7200), PrivatePost(99, 1, 7, -3600);
            Page([an, e, p], p, 1) == 3
  {
    var p, an, e := PrivatePost(100, 1, 7, 0), PrivatePost(101, 1, 7, -7200), PrivatePost(99, 1, 7, -3600);
    CountBeforeSnoc([], an, p);
    assert [] + [an] == [an];
    CountBeforeSnoc([an], e, p);
    assert [an] + [e] == [an, e];
    CountBeforeSnoc([an, e], p, p);
    assert [an, e] + [p] == [an, e, p];
  }

  /** Posts two days, one day and one minute old, read by user 5 up to the last or up to the first, or not at all. */
  lemma MarkAsUnreadExamples()
    ensures var first, second, third := PrivatePost(1, 2, 7, -172800), PrivatePost(2, 2, 7, -86400), PrivatePost(3, 2, 7, -60);
            var posts := [first, second, third];
            && |MarkedUnread(map[(7, 5) := third.createdAt], posts, first, 5)| == 0
            && MarkedUnread(map[(7, 5) := third.createdAt], posts, third, 5) == map[(7, 5) := second.createdAt]
            && MarkedUnread(map[], posts, first, 5) == map[]
            && |MarkedUnread(map[], posts, third, 5)| == 1
            && MarkedUnread(map[(7, 5) := first.createdAt], posts, third, 5) == map[(7, 5) := second.createdAt]
  {
    var first, second, third := PrivatePost(1, 2, 7, -172800), PrivatePost(2, 2, 7, -86400), PrivatePost(3, 2, 7, -60);
    var posts := [first, second, third];
    assert Previous(posts, first).None?;
    PreviousSnoc([], first, third);
    assert [] + [first] == [first];
    PreviousSnoc([first], second, third);
    assert [first] + [second] == [first, second];
    PreviousSnoc([first, second], third, third);
    assert [first, second] + [third] == posts;
    assert Previous(posts, third) == Some(second);
  }
}
