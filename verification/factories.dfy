/**
 * src/factories.js: the denormalising projections over the domain store
 * (collections, users, hubs, posts), the feed view that resolves the ui
 * feed's pointers against those projections, the `makeApp` composition, and
 * the mutation actions exposed next to each projection.
 */
module Factories {
  import opened Wrappers
  import opened Utils
  import opened Entities

  /** A hub whose account reference has been replaced by the user it names. */
  datatype ResolvedHub = ResolvedHub(id: int, name: string, account: Option<User>)

  /** A post whose collection and user references have been resolved. */
  datatype ResolvedPost = ResolvedPost(id: int, title: string, collection: Option<Collection>, user: Option<User>)

  function ResolvedHubId(h: ResolvedHub): int { h.id }
  function ResolvedPostId(p: ResolvedPost): int { p.id }

  /**
   * The ui feed seed: a hub pointer, a spotlight pointer and ordered id lists
   * (`{ id }` objects in the snapshot; only their ids are ever read).
   */
  datatype FeedSeed = FeedSeed(collections: seq<int>, hub: int, posts: seq<int>, spotlight: int)

  /** The whole store: `domain` collections plus the `ui.feed` seed. */
  datatype Snapshot = Snapshot(
    collections: seq<Collection>,
    users: seq<User>,
    hubs: seq<Hub>,
    posts: seq<Post>,
    feed: FeedSeed)

  /** The feed view: point lookups of the seed's pointers in the projected lists. */
  datatype FeedView = FeedView(
    hub: Option<ResolvedHub>,
    spotlight: Option<ResolvedPost>,
    collections: seq<Option<Collection>>,
    posts: seq<Option<ResolvedPost>>)

  /** What `makeApp` returns: the projected lists next to the feed view. */
  datatype AppView = AppView(
    hubs: seq<ResolvedHub>,
    posts: seq<ResolvedPost>,
    users: seq<User>,
    collections: seq<Collection>,
    feed: FeedView)

  // ---------------------------------------------------------------- projections

  /** `makeCollections`: the domain collections, element for element. */
  function MakeCollections(collections: seq<Collection>): (r: seq<Collection>)
    ensures r == collections
  {
    MapSeq((c: Collection) => c, collections)
  }

  /** `makeUsers`: the domain users, element for element. */
  function MakeUsers(users: seq<User>): (r: seq<User>)
    ensures r == users
  {
    MapSeq((u: User) => u, users)
  }

  function ResolveHub(h: Hub, users: seq<User>): ResolvedHub
  {
    ResolvedHub(h.id, h.name, FindById(h.account.id, users, UserId))
  }

  /** `makeHubs`: every hub with its account resolved among the domain users. */
  function MakeHubs(hubs: seq<Hub>, users: seq<User>): (r: seq<ResolvedHub>)
    ensures |r| == |hubs|
    ensures forall i :: 0 <= i < |hubs| ==>
      && r[i].id == hubs[i].id
      && r[i].name == hubs[i].name
      && r[i].account == FindById(hubs[i].account.id, users, UserId)
  {
    MapSeq((h: Hub) => ResolveHub(h, users), hubs)
  }

  function ResolvePost(p: Post, collections: seq<Collection>, users: seq<User>): ResolvedPost
  {
    ResolvedPost(p.id, p.title, FindById(p.collectionId, collections, CollectionId), FindById(p.userId, users, UserId))
  }

  /** `makePosts`: every post with its collection and user resolved. */
  function MakePosts(posts: seq<Post>, collections: seq<Collection>, users: seq<User>): (r: seq<ResolvedPost>)
    ensures |r| == |posts|
    ensures forall i :: 0 <= i < |posts| ==>
      && r[i].id == posts[i].id
      && r[i].title == posts[i].title
      && r[i].collection == FindById(posts[i].collectionId, collections, CollectionId)
      && r[i].user == FindById(posts[i].userId, users, UserId)
  {
    MapSeq((p: Post) => ResolvePost(p, collections, users), posts)
  }

  /**
   * `makeFeed`: the hub and spotlight pointers and the id lists looked up in
   * the projected hubs, posts and collections. The lists follow the seed's
   * own order and length, not those of the backing collections.
   */
  function MakeFeed(seed: FeedSeed, hubs: seq<ResolvedHub>, posts: seq<ResolvedPost>, collections: seq<Collection>): (v: FeedView)
    ensures v.hub.None? <==> forall j :: 0 <= j < |hubs| ==> hubs[j].id != seed.hub
    ensures v.hub.Some? ==>
      exists k :: 0 <= k < |hubs| && v.hub.value == hubs[k] && hubs[k].id == seed.hub
                  && forall j :: 0 <= j < k ==> hubs[j].id != seed.hub
    ensures v.spotlight.None? <==> forall j :: 0 <= j < |posts| ==> posts[j].id != seed.spotlight
    ensures v.spotlight.Some? ==>
      exists k :: 0 <= k < |posts| && v.spotlight.value == posts[k] && posts[k].id == seed.spotlight
                  && forall j :: 0 <= j < k ==> posts[j].id != seed.spotlight
    ensures |v.collections| == |seed.collections|
    ensures forall i :: 0 <= i < |seed.collections| ==>
      v.collections[i] == FindById(seed.collections[i], collections, CollectionId)
    ensures |v.posts| == |seed.posts|
    ensures forall i :: 0 <= i < |seed.posts| ==>
      v.posts[i] == FindById(seed.posts[i], posts, ResolvedPostId)
  {
    FeedView(
      FindById(seed.hub, hubs, ResolvedHubId),
      FindById(seed.spotlight, posts, ResolvedPostId),
      MapSeq((c: int) => FindById(c, collections, CollectionId), seed.collections),
      MapSeq((p: int) => FindById(p, posts, ResolvedPostId), seed.posts))
  }

  /**
   * `makeApp`: builds the four projections from the domain store and the feed
   * from those projections (the writes into `store.ui` are the bindings below).
   */
  function MakeApp(s: Snapshot): (a: AppView)
    ensures a.users == s.users && a.collections == s.collections
    ensures a.hubs == MakeHubs(s.hubs, s.users) && a.posts == MakePosts(s.posts, s.collections, s.users)
    ensures a.feed == MakeFeed(s.feed, a.hubs, a.posts, s.collections)
  {
    var hubs := MakeHubs(s.hubs, s.users);
    var posts := MakePosts(s.posts, s.collections, s.users);
    var users := MakeUsers(s.users);
    var collections := MakeCollections(s.collections);
    AppView(hubs, posts, users, collections, MakeFeed(s.feed, hubs, posts, collections))
  }

  // ------------------------------------------------ the join is transitive

  /**
   * The feed's hub is the first domain hub with the seed's hub id, and its
   * account is the user that hub's account reference names.
   */
  lemma FeedHubJoin(s: Snapshot)
    ensures var v := MakeApp(s).feed.hub;
            var h := FindById(s.feed.hub, s.hubs, HubId);
            && (v.Some? <==> h.Some?)
            && (h.Some? ==>
                 && v.value.id == h.value.id
                 && v.value.name == h.value.name
                 && v.value.account == FindById(h.value.account.id, s.users, UserId))
  {
    IndexByIdPointwise(s.feed.hub, s.hubs, HubId, MakeHubs(s.hubs, s.users), ResolvedHubId);
  }

  /**
   * The feed's spotlight is the first domain post with the spotlight id, with
   * its collection and user resolved.
   */
  lemma FeedSpotlightJoin(s: Snapshot)
    ensures var v := MakeApp(s).feed.spotlight;
            var p := FindById(s.feed.spotlight, s.posts, PostId);
            && (v.Some? <==> p.Some?)
            && (p.Some? ==> v.value == ResolvePost(p.value, s.collections, s.users))
  {
    IndexByIdPointwise(s.feed.spotlight, s.posts, PostId, MakePosts(s.posts, s.collections, s.users), ResolvedPostId);
  }

  /**
   * Element i of the feed's posts is the first domain post whose id is the
   * seed's i-th id, resolved; it is absent exactly when no post has that id.
   */
  lemma FeedPostsJoin(s: Snapshot)
    ensures var v := MakeApp(s).feed.posts;
            && |v| == |s.feed.posts|
            && forall i :: 0 <= i < |v| ==>
                 var p := FindById(s.feed.posts[i], s.posts, PostId);
                 && (v[i].Some? <==> p.Some?)
                 && (p.Some? ==> v[i].value == ResolvePost(p.value, s.collections, s.users))
  {
    var posts := MakePosts(s.posts, s.collections, s.users);
    forall i | 0 <= i < |s.feed.posts| {
      IndexByIdPointwise(s.feed.posts[i], s.posts, PostId, posts, ResolvedPostId);
    }
  }

  /** Element i of the feed's collections is the domain collection with the i-th id. */
  lemma FeedCollectionsJoin(s: Snapshot)
    ensures var v := MakeApp(s).feed.collections;
            && |v| == |s.feed.collections|
            && forall i :: 0 <= i < |v| ==> v[i] == FindById(s.feed.collections[i], s.collections, CollectionId)
  {
  }

  // ------------------------------------------- effects of the mutation actions

  /**
   * Once a `requestPosts` batch with distinct ids is applied, the feed lists
   * exactly the batch, resolved, in batch order.
   */
  lemma RequestPostsFeedFollowsBatch(s: Snapshot, xs: seq<Post>)
    requires UniqueIds(xs, PostId)
    ensures var v := MakeApp(s.(posts := xs, feed := s.feed.(posts := PostIds(xs)))).feed.posts;
            && |v| == |xs|
            && forall i :: 0 <= i < |xs| ==> v[i] == Some(ResolvePost(xs[i], s.collections, s.users))
  {
    var s' := s.(posts := xs, feed := s.feed.(posts := PostIds(xs)));
    FeedPostsJoin(s');
    forall i | 0 <= i < |xs|
      ensures MakeApp(s').feed.posts[i] == Some(ResolvePost(xs[i], s.collections, s.users))
    {
      FindByIdUnique(xs, PostId, i);
    }
  }

  /**
   * Once `addPost(post)` completes, the feed has one more element, at its end,
   * naming post; earlier elements that were resolved keep their value, and when
   * no earlier post had post's id the new element is post itself, resolved.
   */
  lemma AddPostFeedAppends(s: Snapshot, post: Post)
    ensures var v := MakeApp(s).feed.posts;
            var v' := MakeApp(s.(posts := s.posts + [post], feed := s.feed.(posts := s.feed.posts + [post.id]))).feed.posts;
            && |v'| == |v| + 1
            && v'[|v|].Some? && v'[|v|].value.id == post.id
            && (FindById(post.id, s.posts, PostId).None? ==> v'[|v|] == Some(ResolvePost(post, s.collections, s.users)))
            && forall i :: 0 <= i < |v| && v[i].Some? ==> v'[i] == v[i]
  {
    var s' := s.(posts := s.posts + [post], feed := s.feed.(posts := s.feed.posts + [post.id]));
    var posts := MakePosts(s.posts, s.collections, s.users);
    var rp := ResolvePost(post, s.collections, s.users);
    MakePostsAppend(s.posts, post, s.collections, s.users);
    assert MakeApp(s').posts == posts + [rp];
    var v := MakeApp(s).feed.posts;
    var v' := MakeApp(s').feed.posts;
    assert v'[|v|] == FindById(post.id, posts + [rp], ResolvedPostId);
    FindByIdConcat(post.id, posts, [rp], ResolvedPostId);
    forall i | 0 <= i < |v| && v[i].Some?
      ensures v'[i] == v[i]
    {
      assert v'[i] == FindById(s.feed.posts[i], posts + [rp], ResolvedPostId);
      FindByIdConcat(s.feed.posts[i], posts, [rp], ResolvedPostId);
    }
  }

  /** Appending a post to the domain appends its resolution to the projection. */
  lemma MakePostsAppend(xs: seq<Post>, p: Post, collections: seq<Collection>, users: seq<User>)
    ensures MakePosts(xs + [p], collections, users) == MakePosts(xs, collections, users) + [ResolvePost(p, collections, users)]
  {
    var r := MakePosts(xs + [p], collections, users);
    var r' := MakePosts(xs, collections, users) + [ResolvePost(p, collections, users)];
    forall i | 0 <= i < |r| ensures r[i] == r'[i] {
      assert (xs + [p])[i] == if i < |xs| then xs[i] else p;
    }
  }

  /**
   * Adding a user keeps every reference that already resolved, and makes the
   * posts and hubs that referred to the new id (and resolved nowhere) resolve to it.
   */
  lemma AddUserKeepsResolvedLinks(s: Snapshot, u: User)
    ensures var a := MakeApp(s);
            var a' := MakeApp(s.(users := s.users + [u]));
            && (forall i :: 0 <= i < |s.posts| ==>
                 a'.posts[i].user == if a.posts[i].user.Some? then a.posts[i].user
                                     else if s.posts[i].userId == u.id then Some(u) else None)
            && (forall i :: 0 <= i < |s.hubs| ==>
                 a'.hubs[i].account == if a.hubs[i].account.Some? then a.hubs[i].account
                                       else if s.hubs[i].account.id == u.id then Some(u) else None)
  {
    forall i | 0 <= i < |s.posts| {
      FindByIdConcat(s.posts[i].userId, s.users, [u], UserId);
    }
    forall i | 0 <= i < |s.hubs| {
      FindByIdConcat(s.hubs[i].account.id, s.users, [u], UserId);
    }
  }

  /**
   * Moving the spotlight changes the view's spotlight and nothing else; the new
   * spotlight is the projected post with the new id.
   */
  lemma UpdateSpotlightOnlyMovesSpotlight(s: Snapshot, id: int)
    ensures var a := MakeApp(s);
            MakeApp(s.(feed := s.feed.(spotlight := id)))
              == a.(feed := a.feed.(spotlight := FindById(id, a.posts, ResolvedPostId)))
  {
  }

  // ------------------------------------------------------------ the store

  /**
   * The observable store: the domain collections and the ui feed seed. Its
   * methods are the mutation actions that the projections expose.
   */
  class Store {
    var collections: seq<Collection>
    var users: seq<User>
    var hubs: seq<Hub>
    var posts: seq<Post>
    var feed: FeedSeed

    function State(): Snapshot
      reads this
    {
      Snapshot(collections, users, hubs, posts, feed)
    }

    /** The view `makeApp` derives from the current state. */
    function App(): AppView
      reads this
    {
      MakeApp(State())
    }

    constructor (s: Snapshot)
      ensures State() == s
    {
      collections, users, hubs, posts, feed := s.collections, s.users, s.hubs, s.posts, s.feed;
    }

    /** `collections.load(xs)`: replace the domain collections by xs. */
    method LoadCollections(xs: seq<Collection>)
      modifies this
      ensures State() == old(State()).(collections := xs)
    {
      collections := xs;
    }

    /** `collections.add(x)`: append x to the domain collections. */
    method AddCollection(x: Collection)
      modifies this
      ensures State() == old(State()).(collections := old(collections) + [x])
    {
      collections := collections + [x];
    }

    /** `users.load(xs)`. */
    method LoadUsers(xs: seq<User>)
      modifies this
      ensures State() == old(State()).(users := xs)
    {
      users := xs;
    }

    /** `users.add(x)`. */
    method AddUser(x: User)
      modifies this
      ensures State() == old(State()).(users := old(users) + [x])
    {
      users := users + [x];
    }

    /** `hubs.load(xs)`. */
    method LoadHubs(xs: seq<Hub>)
      modifies this
      ensures State() == old(State()).(hubs := xs)
    {
      hubs := xs;
    }

    /** `hubs.add(x)`. */
    method AddHub(x: Hub)
      modifies this
      ensures State() == old(State()).(hubs := old(hubs) + [x])
    {
      hubs := hubs + [x];
    }

    /** `posts.load(xs)`. */
    method LoadPosts(xs: seq<Post>)
      modifies this
      ensures State() == old(State()).(posts := xs)
    {
      posts := xs;
    }

    /** `posts.add(x)`. */
    method AddPost(x: Post)
      modifies this
      ensures State() == old(State()).(posts := old(posts) + [x])
    {
      posts := posts + [x];
    }

    /**
     * `feed.requestPosts(hubId)` once its fetched batch xs has been applied:
     * the domain posts become xs, then the feed's post list becomes xs.
     */
    method RequestPostsCompleted(xs: seq<Post>)
      modifies this
      ensures State() == old(State()).(posts := xs, feed := old(feed).(posts := PostIds(xs)))
      ensures UniqueIds(xs, PostId) ==>
        && |App().feed.posts| == |xs|
        && forall i :: 0 <= i < |xs| ==> App().feed.posts[i] == Some(ResolvePost(xs[i], collections, users))
    {
      ghost var s := State();
      if UniqueIds(xs, PostId) {
        RequestPostsFeedFollowsBatch(s, xs);
      }
      LoadPosts(xs);
      feed := feed.(posts := PostIds(xs));
    }

    /**
     * `feed.addPost(x)` once the api has echoed the post back: it is appended
     * to the domain posts and to the feed's post list.
     */
    method AddPostCompleted(post: Post)
      modifies this
      ensures State() == old(State()).(posts := old(posts) + [post],
                                       feed := old(feed).(posts := old(feed.posts) + [post.id]))
      ensures var v := old(App()).feed.posts;
              && |App().feed.posts| == |v| + 1
              && App().feed.posts[|v|].Some? && App().feed.posts[|v|].value.id == post.id
              && forall i :: 0 <= i < |v| && v[i].Some? ==> App().feed.posts[i] == v[i]
    {
      AddPostFeedAppends(State(), post);
      AddPost(post);
      feed := feed.(posts := feed.posts + [post.id]);
    }

    /** `feed.updateSpotlight(x)`: point the spotlight at x's id. */
    method UpdateSpotlight(id: int)
      modifies this
      ensures State() == old(State()).(feed := old(feed).(spotlight := id))
      ensures App() == old(App()).(feed := old(App()).feed.(spotlight := FindById(id, old(App()).posts, ResolvedPostId)))
    {
      UpdateSpotlightOnlyMovesSpotlight(State(), id);
      feed := feed.(spotlight := id);
    }
  }
}
