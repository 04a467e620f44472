/**
 * The scenario of test.js, on the values it uses: the initial feed of the
 * snapshot, then a new user and a fetched batch of three posts.
 */
module Scenario {
  import opened Wrappers
  import opened Entities
  import opened Utils
  import opened Factories

  function InitialSnapshot(): Snapshot
  {
    Snapshot(
      [Collection(1000, "FP"), Collection(1001, "Programming")],
      [User(10, "Gary Bernhardt"), User(9, "Uncle Bob")],
      [Hub(100, "Software Engineering Talks", AccountRef("user", 9))],
      [Post(1, "Boundaries", 1001, 10)],
      FeedSeed([1000, 1001], 100, [1], 1))
  }

  /** The batch the fake api returns for `fetchPosts`. */
  function FetchedPosts(): seq<Post>
  {
    [Post(1, "Boundaries", 1001, 10),
     Post(2, "Value of Values", 1000, 11),
     Post(3, "Simple Made Easy", 1000, 11)]
  }

  /** The expectations of the test on the initial feed. */
  lemma InitialFeed()
    ensures var feed := MakeApp(InitialSnapshot()).feed;
            && feed.posts == [Some(ResolvedPost(1, "Boundaries", Some(Collection(1001, "Programming")), Some(User(10, "Gary Bernhardt"))))]
            && feed.spotlight.Some?
            && feed.spotlight.value.title == "Boundaries"
            && feed.spotlight.value.collection == Some(Collection(1001, "Programming"))
            && feed.spotlight.value.user == Some(User(10, "Gary Bernhardt"))
            && feed.hub.Some?
            && feed.hub.value.name == "Software Engineering Talks"
            && feed.hub.value.account == Some(User(9, "Uncle Bob"))
  {
    var s := InitialSnapshot();
    FeedPostsJoin(s);
    FeedSpotlightJoin(s);
    FeedHubJoin(s);
  }

  /** The user added by the test resolves once appended. */
  lemma AddedUserResolves()
    ensures FindById(11, InitialSnapshot().users + [User(11, "Rich Hickey")], UserId) == Some(User(11, "Rich Hickey"))
  {
    var us := InitialSnapshot().users;
    FindByIdConcat(11, us, [User(11, "Rich Hickey")], UserId);
    assert us[0].id == 10 && us[1].id == 9;
  }

  /** The store after `users.add({ id: 11, ... })` and the `requestPosts` batch. */
  function AfterRequest(): Snapshot
  {
    var s := InitialSnapshot();
    var s' := s.(users := s.users + [User(11, "Rich Hickey")]);
    s'.(posts := FetchedPosts(), feed := s'.feed.(posts := PostIds(FetchedPosts())))
  }

  /** After adding user 11 and applying the fetched batch, the feed lists the batch titles in order. */
  lemma FeedAfterRequest()
    ensures var posts := MakeApp(AfterRequest()).feed.posts;
            && |posts| == 3
            && posts[0].Some? && posts[1].Some? && posts[2].Some?
            && posts[0].value.title == "Boundaries"
            && posts[1].value.title == "Value of Values"
            && posts[2].value.title == "Simple Made Easy"
            && posts[1].value.user == Some(User(11, "Rich Hickey"))
  {
    var s := InitialSnapshot();
    var s' := s.(users := s.users + [User(11, "Rich Hickey")]);
    var xs := FetchedPosts();
    forall i, j | 0 <= i < j < |xs| ensures PostId(xs[i]) != PostId(xs[j]) {
      assert i == 0 || i == 1;
      assert j == 1 || j == 2;
    }
    RequestPostsFeedFollowsBatch(s', xs);
    var v := MakeApp(s'.(posts := xs, feed := s'.feed.(posts := PostIds(xs)))).feed.posts;
    assert v[1].value.user == FindById(xs[1].userId, s'.users, UserId);
    AddedUserResolves();
  }

  /**
   * The expectations the test keeps commented out: once the spotlight is moved
   * to post 2, it shows that post with collection "FP" and the new user.
   */
  lemma SpotlightAfterMove()
    ensures var s := AfterRequest().(feed := AfterRequest().feed.(spotlight := 2));
            var spotlight := MakeApp(s).feed.spotlight;
            && spotlight.Some?
            && spotlight.value.title == "Value of Values"
            && spotlight.value.collection == Some(Collection(1000, "FP"))
            && spotlight.value.user == Some(User(11, "Rich Hickey"))
  {
    var s := AfterRequest().(feed := AfterRequest().feed.(spotlight := 2));
    var xs := FetchedPosts();
    assert s.posts == xs;
    FeedSpotlightJoin(s);
    assert FindById(2, xs, PostId) == Some(xs[1]);
    assert FindById(1000, s.collections, CollectionId) == Some(Collection(1000, "FP"));
    AddedUserResolves();
  }
}
