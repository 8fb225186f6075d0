/**
 * Client scenarios that drive the store the way its route tests do, each one
 * starting with a reset of the store. What they establish follows from the
 * contracts of Forum.Store alone.
 */
module ForumScenarios {
  import opened Forum

  /** A post with one empty field is refused and leaves the store as it was. */
  method CreateWithEmptyFieldFails(store: Store, sender: string, title: string, content: string, now: int)
    returns (r: Result<int>)
    requires sender == [] || title == [] || content == []
    modifies store
    ensures r.Err?
    ensures store.posts == [] && store.comments == []
  {
    store.Clear();
    r := store.PostCreate(sender, title, content, now);
  }

  /** Creating the same post three times gives three distinct ids, each larger than the last. */
  method CreateSamePostThrice(store: Store, now: int) returns (id1: int, id2: int, id3: int)
    modifies store
    ensures id1 < id2 < id3
    ensures id1 == 2041 && id2 == 2043 && id3 == 2045
  {
    store.Clear();
    var r1 := store.PostCreate("Emily", "COMP1531 Post", "Welcome to COMP1531!", now);
    var r2 := store.PostCreate("Emily", "COMP1531 Post", "Welcome to COMP1531!", now);
    var r3 := store.PostCreate("Emily", "COMP1531 Post", "Welcome to COMP1531!", now);
    id1, id2, id3 := r1.value, r2.value, r3.value;
  }

  /** One post created, then listed: the listing is that post without its content. */
  method CreateThenList(store: Store, now: int) returns (postId: int, listing: seq<PostSummary>)
    modifies store
    ensures listing == [PostSummary(postId, "sender", "title", now)]
  {
    store.Clear();
    var r := store.PostCreate("sender", "title", "content", now);
    postId := r.value;
    listing := store.PostsList();
  }

  /** Two posts listed come back newest first. */
  method CreateTwoThenList(store: Store, now: int) returns (listing: seq<PostSummary>)
    modifies store
    ensures listing == [PostSummary(2043, "sender 1", "title 1", now), PostSummary(2041, "sender 0", "title 0", now)]
  {
    store.Clear();
    var r0 := store.PostCreate("sender 0", "title 0", "content 0", now);
    var r1 := store.PostCreate("sender 1", "title 1", "content 1", now);
    listing := store.PostsList();
    assert Summaries(store.posts) == [PostSummary(2041, "sender 0", "title 0", now), PostSummary(2043, "sender 1", "title 1", now)];
  }

  /**
   * A post is listed; clearing empties the listing, and clearing again leaves the
   * same empty store as clearing once.
   */
  method ClearTwice(store: Store, now: int) returns (before: seq<PostSummary>, listing: seq<PostSummary>)
    modifies store
    ensures |before| == 1
    ensures store.posts == [] && store.comments == []
    ensures listing == []
  {
    store.Clear();
    var r := store.PostCreate("Nick", "COMP1531", "Welcome to COMP1531!", now);
    before := store.PostsList();
    store.Clear();
    var afterFirst := store.PostsList();
    store.Clear();
    listing := store.PostsList();
    assert listing == afterFirst;
  }

  /**
   * Ids are assigned from the current post count, so a clear makes the next post
   * reuse an id handed out before it: ids are distinct only among stored posts.
   */
  method IdReusedAfterClear(store: Store, now: int) returns (first: int, second: int)
    modifies store
    ensures first == second == 2041
  {
    store.Clear();
    var r1 := store.PostCreate("sender", "title", "content", now);
    store.Clear();
    var r2 := store.PostCreate("sender", "title", "content", now);
    first, second := r1.value, r2.value;
  }
}
