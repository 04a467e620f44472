/**
 * src/transforms.js: the projections of the talks experiment. `users$` is the
 * users store as it is, `talks$` resolves each talk's user among `users$`,
 * and `feed$` resolves the feed's spotlight and id list among `talks$`.
 */
module Transforms {
  import opened Wrappers
  import opened Utils
  import opened Entities
  import opened Stores

  /** A talk whose user reference has been resolved. */
  datatype ResolvedTalk = ResolvedTalk(id: int, title: string, user: Option<User>)

  function ResolvedTalkId(t: ResolvedTalk): int { t.id }

  datatype FeedView = FeedView(spotlight: Option<ResolvedTalk>, talks: seq<Option<ResolvedTalk>>)

  /** The `presenters` object: the stores and the three projections. */
  datatype Presenters = Presenters(stores: StoresState, users: seq<User>, talks: seq<ResolvedTalk>, feed: FeedView)

  /** `makeUsers`: the users store, element for element. */
  function MakeUsers(users: seq<User>): (r: seq<User>)
    ensures r == users
  {
    MapSeq((u: User) => u, users)
  }

  function ResolveTalk(t: Talk, users: seq<User>): ResolvedTalk
  {
    ResolvedTalk(t.id, t.title, FindById(t.userId, users, UserId))
  }

  /** `makeTalks`: every talk with its user resolved among `users$`. */
  function MakeTalks(talks: seq<Talk>, users: seq<User>): (r: seq<ResolvedTalk>)
    ensures |r| == |talks|
    ensures forall i :: 0 <= i < |talks| ==>
      && r[i].id == talks[i].id
      && r[i].title == talks[i].title
      && r[i].user == FindById(talks[i].userId, users, UserId)
  {
    MapSeq((t: Talk) => ResolveTalk(t, users), talks)
  }

  /**
   * `makeFeed`: the spotlight is the first projected talk whose id is the
   * spotlight pointer (the source's strict-equality `find`, which on integer
   * ids is `findById`), or absent; the list follows the feed's own ids.
   */
  function MakeFeed(feed: FeedState, talks: seq<ResolvedTalk>): (v: FeedView)
    ensures v.spotlight.None? <==> forall j :: 0 <= j < |talks| ==> talks[j].id != feed.spotlight
    ensures v.spotlight.Some? ==>
      exists k :: 0 <= k < |talks| && v.spotlight.value == talks[k] && talks[k].id == feed.spotlight
                  && forall j :: 0 <= j < k ==> talks[j].id != feed.spotlight
    ensures |v.talks| == |feed.talks|
    ensures forall i :: 0 <= i < |feed.talks| ==> v.talks[i] == FindById(feed.talks[i], talks, ResolvedTalkId)
  {
    FeedView(
      FindById(feed.spotlight, talks, ResolvedTalkId),
      MapSeq((id: int) => FindById(id, talks, ResolvedTalkId), feed.talks))
  }

  /** `makeTransforms`: `users$` from the stores, `talks$` from it, `feed$` from that. */
  function MakeTransforms(stores: StoresState): (p: Presenters)
    ensures p.stores == stores && p.users == stores.users
    ensures p.talks == MakeTalks(stores.talks, stores.users)
    ensures p.feed == MakeFeed(stores.feed, p.talks)
  {
    var users := MakeUsers(stores.users);
    var talks := MakeTalks(stores.talks, users);
    Presenters(stores, users, talks, MakeFeed(stores.feed, talks))
  }

  /**
   * Each feed talk is the first stored talk with the feed's i-th id, with its
   * user resolved among the stored users; absent when no talk has that id.
   */
  lemma FeedTalksJoin(stores: StoresState)
    ensures var v := MakeTransforms(stores).feed.talks;
            && |v| == |stores.feed.talks|
            && forall i :: 0 <= i < |v| ==>
                 var t := FindById(stores.feed.talks[i], stores.talks, TalkId);
                 && (v[i].Some? <==> t.Some?)
                 && (t.Some? ==> v[i].value == ResolveTalk(t.value, stores.users))
  {
    var talks := MakeTalks(stores.talks, stores.users);
    forall i | 0 <= i < |stores.feed.talks| {
      IndexByIdPointwise(stores.feed.talks[i], stores.talks, TalkId, talks, ResolvedTalkId);
    }
  }

  /** The spotlight is the first stored talk with the spotlight id, its user resolved. */
  lemma SpotlightJoin(stores: StoresState)
    ensures var v := MakeTransforms(stores).feed.spotlight;
            var t := FindById(stores.feed.spotlight, stores.talks, TalkId);
            && (v.Some? <==> t.Some?)
            && (t.Some? ==> v.value == ResolveTalk(t.value, stores.users))
  {
    IndexByIdPointwise(stores.feed.spotlight, stores.talks, TalkId, MakeTalks(stores.talks, stores.users), ResolvedTalkId);
  }

  /**
   * Once a `requestTalks` batch with distinct ids has been applied, `feed$`
   * lists exactly the batch, resolved, in batch order.
   */
  lemma RequestTalksFeedFollowsBatch(stores: StoresState, xs: seq<Talk>)
    requires UniqueIds(xs, TalkId)
    ensures var v := MakeTransforms(stores.(talks := xs, feed := stores.feed.(talks := TalkIds(xs)))).feed.talks;
            && |v| == |xs|
            && forall i :: 0 <= i < |xs| ==> v[i] == Some(ResolveTalk(xs[i], stores.users))
  {
    var stores' := stores.(talks := xs, feed := stores.feed.(talks := TalkIds(xs)));
    FeedTalksJoin(stores');
    forall i | 0 <= i < |xs|
      ensures MakeTransforms(stores').feed.talks[i] == Some(ResolveTalk(xs[i], stores.users))
    {
      FindByIdUnique(xs, TalkId, i);
    }
  }

  /**
   * Moving the spotlight changes `feed$.spotlight` and nothing else in the
   * projections; the new spotlight is the projected talk with the new id.
   */
  lemma UpdateSpotlightOnlyMovesSpotlight(stores: StoresState, id: int)
    ensures var p := MakeTransforms(stores);
            MakeTransforms(stores.(feed := stores.feed.(spotlight := id)))
              == p.(stores := stores.(feed := stores.feed.(spotlight := id)),
                    feed := p.feed.(spotlight := FindById(id, p.talks, ResolvedTalkId)))
  {
  }

  /**
   * After `updateTalk` merges a patch into the talk at position k, `talks$`
   * shows the merged talk at k and every other projected talk as before.
   */
  lemma UpdateTalkReflected(stores: StoresState, patch: TalkPatch)
    requires IndexById(patch.id, stores.talks, TalkId) < |stores.talks|
    ensures var k := IndexById(patch.id, stores.talks, TalkId);
            var before := MakeTransforms(stores).talks;
            var after := MakeTransforms(stores.(talks := stores.talks[k := MergeTalk(stores.talks[k], patch)])).talks;
            && |after| == |before|
            && after[k].id == before[k].id
            && after[k].title == (if patch.title.Some? then patch.title.value else before[k].title)
            && (patch.userId.Some? ==> after[k].user == FindById(patch.userId.value, stores.users, UserId))
            && (patch.userId.None? ==> after[k].user == before[k].user)
            && forall j :: 0 <= j < |before| && j != k ==> after[j] == before[j]
  {
  }
}
