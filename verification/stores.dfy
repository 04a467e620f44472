/**
 * src/stores.js: the mutable stores of the talks experiment. `makeUsers` and
 * `makeTalks` wrap a list in an observable store with `add`, `load` (talks
 * only) and `updateTalk`; `makeFeed` wraps the feed seed and is handed the
 * talks store it reloads; `makeStores` wires the three together.
 */
module Stores {
  import opened Wrappers
  import opened Utils
  import opened Entities

  /**
   * The argument of `updateTalk` on the users store: the id that selects the
   * record and the fields it carries (a field it does not carry is None).
   */
  datatype UserPatch = UserPatch(id: int, name: Option<string>)

  /** The argument of `updateTalk` on the talks store. */
  datatype TalkPatch = TalkPatch(id: int, title: Option<string>, userId: Option<int>)

  /** The feed seed of this experiment: a spotlight pointer and an ordered id list. */
  datatype FeedState = FeedState(spotlight: int, talks: seq<int>)

  /** The values held by the three stores `makeStores` builds. */
  datatype StoresState = StoresState(users: seq<User>, talks: seq<Talk>, feed: FeedState)

  /** `Object.assign(u, patch)`: the fields the patch carries overwrite u's. */
  function MergeUser(u: User, patch: UserPatch): (r: User)
    ensures r.id == u.id
    ensures patch.name.Some? ==> r.name == patch.name.value
    ensures patch.name.None? ==> r.name == u.name
  {
    User(u.id, if patch.name.Some? then patch.name.value else u.name)
  }

  /** `Object.assign(t, patch)`: the fields the patch carries overwrite t's. */
  function MergeTalk(t: Talk, patch: TalkPatch): (r: Talk)
    ensures r.id == t.id
    ensures patch.title.Some? ==> r.title == patch.title.value
    ensures patch.title.None? ==> r.title == t.title
    ensures patch.userId.Some? ==> r.userId == patch.userId.value
    ensures patch.userId.None? ==> r.userId == t.userId
  {
    Talk(t.id,
         if patch.title.Some? then patch.title.value else t.title,
         if patch.userId.Some? then patch.userId.value else t.userId)
  }

  /**
   * Merging is idempotent, a patch carrying no field leaves the record as it
   * was, and of two patches applied in turn the later one wins field by field.
   */
  lemma MergeTalkLaws(t: Talk, p: TalkPatch, q: TalkPatch)
    ensures MergeTalk(MergeTalk(t, p), p) == MergeTalk(t, p)
    ensures MergeTalk(t, TalkPatch(p.id, None, None)) == t
    ensures MergeTalk(MergeTalk(t, p), q)
         == MergeTalk(t, TalkPatch(q.id, if q.title.Some? then q.title else p.title,
                                         if q.userId.Some? then q.userId else p.userId))
  {
  }

  /** The same laws for the users store's merge. */
  lemma MergeUserLaws(u: User, p: UserPatch, q: UserPatch)
    ensures MergeUser(MergeUser(u, p), p) == MergeUser(u, p)
    ensures MergeUser(u, UserPatch(p.id, None)) == u
    ensures MergeUser(MergeUser(u, p), q)
         == MergeUser(u, UserPatch(q.id, if q.name.Some? then q.name else p.name))
  {
  }

  /**
   * Merging a patch into the first talk with the patch's id leaves the list of
   * ids as it was, so a store whose ids are distinct keeps them distinct.
   */
  lemma UpdateKeepsTalkIds(items: seq<Talk>, patch: TalkPatch)
    requires IndexById(patch.id, items, TalkId) < |items|
    ensures var k := IndexById(patch.id, items, TalkId);
            && TalkIds(items[k := MergeTalk(items[k], patch)]) == TalkIds(items)
            && (UniqueIds(items, TalkId) ==> UniqueIds(items[k := MergeTalk(items[k], patch)], TalkId))
  {
    var k := IndexById(patch.id, items, TalkId);
    var items' := items[k := MergeTalk(items[k], patch)];
    assert forall j :: 0 <= j < |items| ==> items'[j].id == items[j].id;
  }

  /** The users store (`makeUsers`). */
  class UsersStore {
    var items: seq<User>

    constructor (users: seq<User>)
      ensures items == users
    {
      items := users;
    }

    /** `add(x)`: push x at the end. */
    method Add(x: User)
      modifies this
      ensures items == old(items) + [x]
    {
      items := items + [x];
    }

    /**
     * `updateTalk(patch)`: merge the patch into the first user with its id.
     * When there is none the source throws (Object.assign on undefined): ok is
     * false and nothing changes.
     */
    method UpdateTalk(patch: UserPatch) returns (ok: bool)
      modifies this
      ensures ok <==> exists j :: 0 <= j < |old(items)| && old(items)[j].id == patch.id
      ensures !ok ==> items == old(items)
      ensures ok ==>
        var k := IndexById(patch.id, old(items), UserId);
        && |items| == |old(items)|
        && items[k].id == old(items)[k].id
        && items[k].name == (if patch.name.Some? then patch.name.value else old(items)[k].name)
        && forall j :: 0 <= j < |items| && j != k ==> items[j] == old(items)[j]
    {
      var k := IndexById(patch.id, items, UserId);
      if k < |items| {
        items := items[k := MergeUser(items[k], patch)];
        ok := true;
      } else {
        ok := false;
      }
    }
  }

  /** The talks store (`makeTalks`). */
  class TalksStore {
    var items: seq<Talk>

    constructor (talks: seq<Talk>)
      ensures items == talks
    {
      items := talks;
    }

    /** `load(xs)`: replace the contents by xs. */
    method Load(xs: seq<Talk>)
      modifies this
      ensures items == xs
    {
      items := xs;
    }

    /** `add(x)`: push x at the end. */
    method Add(x: Talk)
      modifies this
      ensures items == old(items) + [x]
    {
      items := items + [x];
    }

    /**
     * `updateTalk(patch)`: merge the patch into the first talk with its id;
     * ok is false, and nothing changes, when no talk has that id.
     */
    method UpdateTalk(patch: TalkPatch) returns (ok: bool)
      modifies this
      ensures ok <==> exists j :: 0 <= j < |old(items)| && old(items)[j].id == patch.id
      ensures !ok ==> items == old(items)
      ensures ok ==>
        var k := IndexById(patch.id, old(items), TalkId);
        && |items| == |old(items)|
        && items[k].id == old(items)[k].id
        && items[k].title == (if patch.title.Some? then patch.title.value else old(items)[k].title)
        && items[k].userId == (if patch.userId.Some? then patch.userId.value else old(items)[k].userId)
        && forall j :: 0 <= j < |items| && j != k ==> items[j] == old(items)[j]
    {
      var k := IndexById(patch.id, items, TalkId);
      if k < |items| {
        items := items[k := MergeTalk(items[k], patch)];
        ok := true;
      } else {
        ok := false;
      }
    }
  }

  /** The feed store (`makeFeed`); `talksStore` is the talks store it was handed. */
  class FeedStore {
    const talksStore: TalksStore
    var spotlight: int
    var talks: seq<int>

    constructor (talksStore: TalksStore, feed: FeedState)
      ensures this.talksStore == talksStore
      ensures spotlight == feed.spotlight && talks == feed.talks
    {
      this.talksStore := talksStore;
      spotlight, talks := feed.spotlight, feed.talks;
    }

    /**
     * `requestTalks()` once its fetched batch xs has been applied: the talks
     * store is loaded with xs, then the feed's own list is replaced by xs.
     */
    method RequestTalksCompleted(xs: seq<Talk>)
      modifies this, talksStore
      ensures talksStore.items == xs
      ensures talks == TalkIds(xs) && spotlight == old(spotlight)
    {
      talksStore.Load(xs);
      talks := TalkIds(xs);
    }

    /** `updateSpotlight({ id })`: only the spotlight pointer moves. */
    method UpdateSpotlight(id: int)
      modifies this
      ensures spotlight == id && talks == old(talks)
      ensures unchanged(talksStore)
    {
      spotlight := id;
    }
  }

  /** The object `makeStores` returns. */
  class Root {
    const users: UsersStore
    const talks: TalksStore
    const feed: FeedStore

    /** The feed reloads the very talks store exposed as `talks`. */
    ghost predicate Valid()
      reads this
    {
      feed.talksStore == talks
    }

    function State(): StoresState
      reads this, users, talks, feed
    {
      StoresState(users.items, talks.items, FeedState(feed.spotlight, feed.talks))
    }

    /** `makeStores(json)`. */
    constructor (json: StoresState)
      ensures Valid()
      ensures fresh(users) && fresh(talks) && fresh(feed)
      ensures State() == json
    {
      var t := new TalksStore(json.talks);
      users := new UsersStore(json.users);
      talks := t;
      feed := new FeedStore(t, json.feed);
    }

    /**
     * `store.feed.requestTalks()` seen through the returned object: because
     * the feed shares the talks store, the batch lands in `store.talks` too.
     */
    method RequestTalksCompleted(xs: seq<Talk>)
      requires Valid()
      modifies feed, talks
      ensures State() == old(State()).(talks := xs, feed := old(State()).feed.(talks := TalkIds(xs)))
    {
      feed.RequestTalksCompleted(xs);
    }
  }
}
