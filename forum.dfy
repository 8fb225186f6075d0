/**
 * The forum store: a single aggregate of posts and (never populated) comments,
 * with length validation of new posts, id assignment on creation, a listing
 * sorted by id (largest first) and a full reset.
 */
module Forum {

  // ------------------------------------------------------------------------
  // Data model

  datatype Post = Post(postId: int, sender: string, title: string, content: string, timeSent: int)

  /** Declared by the store's layout; no operation ever adds one. */
  datatype Comment = Comment(commentId: int, postId: int, sender: string, comment: string, timeSent: int)

  /** A post as the listing shows it: everything except its content. */
  datatype PostSummary = PostSummary(postId: int, sender: string, title: string, timeSent: int)

  /** The 400 error raised when a field is outside its length bounds; it names the field and the bounds. */
  datatype Error = LengthError(field: string, minLength: int, maxLength: int)

  datatype Check = Pass | Fail(error: Error)

  datatype Result<T> = Ok(value: T) | Err(error: Error)

  const FirstPostId := 2041
  const PostIdStep := 2

  /** The id `postCreate` gives to a post created when the store holds `count` posts. */
  function PostIdFor(count: nat): int
  {
    count * PostIdStep + FirstPostId
  }

  // ------------------------------------------------------------------------
  // Validation

  /** A post is acceptable when sender and title have 1..20 characters and content 1..250. */
  predicate ValidPostDetails(sender: string, title: string, content: string)
  {
    1 <= |sender| <= 20 && 1 <= |title| <= 20 && 1 <= |content| <= 250
  }

  /**
   * Rejects an empty string and one whose length is outside [minLength, maxLength].
   * The emptiness test only matters when minLength is not positive.
   */
  function CheckLength(field: string, s: string, minLength: int, maxLength: int): (r: Check)
    ensures r.Pass? <==> s != [] && minLength <= |s| <= maxLength
    ensures minLength >= 1 ==> (r.Pass? <==> minLength <= |s| <= maxLength)
    ensures r.Fail? ==> r.error == LengthError(field, minLength, maxLength)
  {
    if |s| == 0 || |s| < minLength || |s| > maxLength then
      Fail(LengthError(field, minLength, maxLength))
    else
      Pass
  }

  /** Checks sender, title and content in that order; the first field out of bounds is reported. */
  function CheckValidPostDetails(sender: string, title: string, content: string): (r: Check)
    ensures r.Pass? <==> ValidPostDetails(sender, title, content)
    ensures sender == [] || title == [] || content == [] ==> r.Fail?
    ensures !(1 <= |sender| <= 20) ==> r == Fail(LengthError("sender", 1, 20))
    ensures 1 <= |sender| <= 20 && !(1 <= |title| <= 20) ==> r == Fail(LengthError("title", 1, 20))
    ensures 1 <= |sender| <= 20 && 1 <= |title| <= 20 && !(1 <= |content| <= 250) ==>
              r == Fail(LengthError("content", 1, 250))
  {
    var s := CheckLength("sender", sender, 1, 20);
    if s.Fail? then s
    else
      var t := CheckLength("title", title, 1, 20);
      if t.Fail? then t
      else CheckLength("content", content, 1, 250)
  }

  // ------------------------------------------------------------------------
  // Listing: projection and sort by id, largest first

  function Summary(p: Post): PostSummary
  {
    PostSummary(p.postId, p.sender, p.title, p.timeSent)
  }

  /** Each post with its content dropped, in store order. */
  function Summaries(posts: seq<Post>): seq<PostSummary>
  {
    seq(|posts|, i requires 0 <= i < |posts| => Summary(posts[i]))
  }

  ghost predicate SortedByIdDescending(s: seq<PostSummary>)
  {
    forall i, j :: 0 <= i < j < |s| ==> s[i].postId >= s[j].postId
  }

  ghost predicate IdsStrictlyIncreasing(s: seq<PostSummary>)
  {
    forall i, j :: 0 <= i < j < |s| ==> s[i].postId < s[j].postId
  }

  function Reverse<T>(s: seq<T>): seq<T>
  {
    if s == [] then [] else Reverse(s[1..]) + [s[0]]
  }

  /** Putting an element no smaller than every id in front of a sorted list keeps it sorted. */
  lemma PrependKeepsSorted(h: PostSummary, t: seq<PostSummary>)
    requires SortedByIdDescending(t)
    requires forall j :: 0 <= j < |t| ==> t[j].postId <= h.postId
    ensures SortedByIdDescending([h] + t)
  {
  }

  /**
   * Places x in front of the first element whose id is not larger than x's,
   * so that x stays ahead of elements with an equal id that came after it.
   */
  function InsertById(x: PostSummary, s: seq<PostSummary>): (r: seq<PostSummary>)
    requires SortedByIdDescending(s)
    ensures SortedByIdDescending(r)
    ensures multiset(r) == multiset(s) + multiset{x}
  {
    if s == [] || s[0].postId <= x.postId then
      [x] + s
    else
      var rest := InsertById(x, s[1..]);
      forall j | 0 <= j < |rest| ensures rest[j].postId <= s[0].postId {
        assert rest[j] in multiset(s[1..]) + multiset{x};
      }
      PrependKeepsSorted(s[0], rest);
      assert s == [s[0]] + s[1..];
      [s[0]] + rest
  }

  /** The comparator `p2.postId - p1.postId`: a sort by id, largest first. */
  function SortByIdDescending(s: seq<PostSummary>): (r: seq<PostSummary>)
    ensures SortedByIdDescending(r)
    ensures multiset(r) == multiset(s)
  {
    if s == [] then []
    else
      assert s == [s[0]] + s[1..];
      InsertById(s[0], SortByIdDescending(s[1..]))
  }

  lemma {:induction false} InsertBelowAll(x: PostSummary, s: seq<PostSummary>)
    requires SortedByIdDescending(s)
    requires forall j :: 0 <= j < |s| ==> x.postId < s[j].postId
    ensures InsertById(x, s) == s + [x]
  {
    if s != [] {
      InsertBelowAll(x, s[1..]);
      assert [s[0]] + (s[1..] + [x]) == s + [x];
    }
  }

  /** When ids grow in store order, sorting largest-first is exactly reversing. */
  lemma {:induction false} SortOfIncreasingIsReverse(s: seq<PostSummary>)
    requires IdsStrictlyIncreasing(s)
    ensures SortByIdDescending(s) == Reverse(s)
  {
    if s != [] {
      var tail := s[1..];
      SortOfIncreasingIsReverse(tail);
      var sorted := SortByIdDescending(tail);
      forall j | 0 <= j < |sorted| ensures s[0].postId < sorted[j].postId {
        assert sorted[j] in multiset(tail);
      }
      InsertBelowAll(s[0], sorted);
    }
  }

  // ------------------------------------------------------------------------
  // Ids

  /** Every post carries the id its creation order gives it. */
  ghost predicate IdsFollowCreationOrder(posts: seq<Post>)
  {
    forall i :: 0 <= i < |posts| ==> posts[i].postId == PostIdFor(i)
  }

  lemma IdsFollowCreationOrderGivesDistinctIds(posts: seq<Post>)
    requires IdsFollowCreationOrder(posts)
    ensures forall i, j :: 0 <= i < j < |posts| ==> posts[i].postId < posts[j].postId
    ensures forall i, j :: 0 <= i < |posts| && 0 <= j < |posts| && i != j ==> posts[i].postId != posts[j].postId
    ensures forall p :: p in posts ==> p.postId >= FirstPostId
  {
  }

  /** The sorted listing holds, for every stored post, its summary and nothing else. */
  lemma SortedSummariesMatchPosts(posts: seq<Post>)
    ensures |SortByIdDescending(Summaries(posts))| == |posts|
    ensures forall p :: p in posts ==> Summary(p) in SortByIdDescending(Summaries(posts))
    ensures forall e :: e in SortByIdDescending(Summaries(posts)) ==> exists p :: p in posts && e == Summary(p)
  {
    var all := Summaries(posts);
    var r := SortByIdDescending(all);
    assert |r| == |multiset(r)| == |multiset(all)| == |all|;
    forall p | p in posts ensures Summary(p) in r {
      var i :| 0 <= i < |posts| && posts[i] == p;
      assert all[i] == Summary(p);
      assert Summary(p) in multiset(all);
    }
    forall e | e in r ensures exists p :: p in posts && e == Summary(p) {
      assert e in multiset(all);
      var i :| 0 <= i < |all| && all[i] == e;
      assert posts[i] in posts;
    }
  }

  /** In a store whose ids follow creation order, the listing is the reverse of creation order. */
  lemma CreationOrderListsInReverse(posts: seq<Post>)
    ensures IdsFollowCreationOrder(posts) ==>
              SortByIdDescending(Summaries(posts)) == Reverse(Summaries(posts))
  {
    if IdsFollowCreationOrder(posts) {
      SortOfIncreasingIsReverse(Summaries(posts));
    }
  }

  // ------------------------------------------------------------------------
  // The store

  /** The store's current value: what getData reads and setData writes. */
  class Store {
    var posts: seq<Post>
    var comments: seq<Comment>

    /** The state every store reached from an empty one by PostCreate and Clear is in. */
    ghost predicate Valid()
      reads this
    {
      IdsFollowCreationOrder(posts) && comments == []
    }

    constructor ()
      ensures posts == [] && comments == []
      ensures Valid()
    {
      posts := [];
      comments := [];
    }

    /**
     * Validates the details before touching the store; then appends one post whose
     * id is twice the current post count plus 2041, and returns that id.
     */
    method PostCreate(sender: string, title: string, content: string, now: int) returns (r: Result<int>)
      modifies this
      ensures r.Ok? <==> ValidPostDetails(sender, title, content)
      ensures r.Err? ==> Fail(r.error) == CheckValidPostDetails(sender, title, content)
      ensures r.Err? ==> posts == old(posts)
      ensures r.Ok? ==> r.value == 2 * |old(posts)| + 2041
      ensures r.Ok? ==> posts == old(posts) + [Post(r.value, sender, title, content, now)]
      ensures comments == old(comments)
      ensures old(Valid()) ==> Valid()
      ensures old(Valid()) && r.Ok? ==> forall p :: p in old(posts) ==> p.postId < r.value
    {
      var check := CheckValidPostDetails(sender, title, content);
      if check.Fail? {
        return Err(check.error);
      }
      var postId := PostIdFor(|posts|);
      if Valid() {
        IdsFollowCreationOrderGivesDistinctIds(posts);
      }
      posts := posts + [Post(postId, sender, title, content, now)];
      r := Ok(postId);
    }

    /**
     * The posts without their content, sorted by id with the largest first: a
     * permutation of the store's posts. In a store reached by PostCreate and
     * Clear, that is the reverse of creation order.
     */
    function PostsList(): (r: seq<PostSummary>)
      reads this
      ensures |r| == |posts|
      ensures SortedByIdDescending(r)
      ensures multiset(r) == multiset(Summaries(posts))
      ensures forall p :: p in posts ==> Summary(p) in r
      ensures forall e :: e in r ==> exists p :: p in posts && e == Summary(p)
      ensures Valid() ==> r == Reverse(Summaries(posts))
    {
      SortedSummariesMatchPosts(posts);
      CreationOrderListsInReverse(posts);
      SortByIdDescending(Summaries(posts))
    }

    /** Empties both sequences; the result is the same whatever the state before. */
    method Clear()
      modifies this
      ensures posts == [] && comments == []
      ensures Valid()
      ensures PostsList() == []
    {
      posts := [];
      comments := [];
    }
  }
}
