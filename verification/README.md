# Denormalising joins over normalised stores (functional-mobx)

This project models the core of a small experiment in deriving joined views
from normalised stores. Records reference each other only by id. Pure
projections replace each id reference with the record it names. A feed view
resolves a hub pointer, a spotlight pointer and ordered id lists against the
projected lists. Mutation actions append to a store, replace it, merge a
patch into one record or move a pointer.

The repository has two variants of this, and both are modelled:

- **Posts variant** (`src/factories.js`, module `Factories`). It has collections,
  users, hubs and posts. `makeHubs` resolves a hub's account. `makePosts` resolves
  a post's collection and user. `makeFeed` looks up the ui feed's pointers in those
  projections. `makeApp` composes them. The `load`/`add`/`requestPosts`/`addPost`/`updateSpotlight`
  actions become the methods of the class `Factories.Store`. The values the store
  holds are given by `Store.State()`, a `Snapshot`.
- **Talks variant** (`src/stores.js` and `src/transforms.js`, modules `Stores`
  and `Transforms`). The mutable users, talks and feed stores are classes.
  The feed store holds a reference to the very talks store that `makeStores`
  returns, so reloading the feed also reloads `store.talks`. `users$`, `talks$`
  and `feed$` are pure functions of the stores' values.

`findById` (`src/utils.js`, module `Utils`) is a first-match lookup that returns
an `Option`. `IndexById` is its independent index-based characterisation. The
lemmas carry a lookup through a projection and through an append. With them,
the transitive join is proved: the feed's hub carries its resolved account,
and every feed post or talk carries its resolved user.

Module `Scenario` replays the scenario of `test.js` on the same values: the
initial feed, then a new user and a fetched batch of three posts. It also
covers the spotlight expectations that the test keeps commented out.

The model follows the code on these points:

- `add` appends without checking that the id is new.
- A batch is not validated.
- No version counters exist.
- Lookups are linear first-match searches.
- `updateTalk` on a missing id is an error (the source throws). Here it is an
  `ok == false` result that leaves the store unchanged.

## Model

| member | source | states |
|---|---|---|
| Utils.FindById | src/utils.js:4 | A present result has the requested id and is an element of the list. The result is absent exactly when no element has that id, so the empty list gives absent. A present result is the element at the first matching index. |
| Utils.IndexById | src/stores.js:18 | The position `find` selects: the first index whose id matches, or the list length when none does. No earlier element has the id. |
| Utils.FindByIdConcat | src/utils.js:4 | Appending elements does not change a lookup that already succeeded on the prefix. A lookup that failed on the prefix is answered by the appended part. |
| Utils.FindByIdUnique | src/utils.js:4 | When ids are distinct, looking up an element's own id returns that element. |
| Utils.IndexByIdPointwise | src/factories.js:50-55 | Two lists whose ids agree position by position answer every lookup at the same index. This carries a lookup through an id-preserving projection. |
| Utils.MapSeq | src/transforms.js:8-12 | Ramda's `map`: the result has the input's length, and element i is f applied to element i. |
| Entities.PostIds | src/factories.js:63 | The feed's id list after a replace by a batch holds the batch's ids, in batch order. |
| Entities.TalkIds | src/stores.js:57 | The same for the talks feed. |
| Factories.MakeCollections | src/factories.js:6-8 | The collections projection is exactly the domain list. |
| Factories.MakeUsers | src/factories.js:14-16 | The users projection is exactly the domain list. |
| Factories.MakeHubs | src/factories.js:22-27 | It has the same length and order as the hubs. Each hub keeps its id and name. Its account is `findById(account.id, users)`. |
| Factories.MakePosts | src/factories.js:33-39 | It has the same length and order as the posts. Each post keeps its id and title. Its collection and user are the lookups of its references, and each is absent when the reference dangles. |
| Factories.MakeFeed | src/factories.js:48-55 | The hub is the first projected hub whose id is the seed's hub pointer, and it is absent exactly when no hub has that id. The spotlight is the same first match among the projected posts. `collections` and `posts` have the length and order of the feed's own id lists, and element i is the lookup of the i-th id in the projected list. |
| Factories.MakeApp | src/factories.js:77-89 | The app exposes the domain users and collections unchanged. `hubs` and `posts` are the projections `MakeHubs` and `MakePosts` of the domain. The feed is `MakeFeed` applied to those projections, not to the raw domain lists. |
| Factories.FeedHubJoin | src/factories.js:77-89 | The feed's hub is present exactly when a domain hub has the pointer's id. It is that first hub, with its account resolved among the domain users. |
| Factories.FeedSpotlightJoin | src/factories.js:77-89 | The spotlight is present exactly when a domain post has the pointer's id. It is that first post, with its collection and user resolved. |
| Factories.FeedPostsJoin | src/factories.js:77-89 | Feed post i is absent exactly when no domain post has the i-th id. Otherwise it is the first such post, resolved. |
| Factories.FeedCollectionsJoin | src/factories.js:52 | Feed collection i is the domain collection with the i-th id, or absent. |
| Factories.RequestPostsFeedFollowsBatch | src/factories.js:58-65 | Once a batch with distinct ids is applied, the feed has the batch's length. Element i is batch post i, resolved, so titles follow batch order. |
| Factories.AddPostFeedAppends | src/factories.js:66-71 | Once `addPost` completes, the feed gains one element at its end with the post's id. That element is the post itself when its id is new. Earlier resolved elements are unchanged. |
| Factories.MakePostsAppend | src/factories.js:33-45 | Appending a post to the domain appends its resolution to the posts projection. |
| Factories.AddUserKeepsResolvedLinks | src/factories.js:19 | After `users.add(u)`, every post user and hub account that resolved keeps its value. References to u's id that dangled now resolve to u. All others stay absent. |
| Factories.UpdateSpotlightOnlyMovesSpotlight | src/factories.js:72-74 | Moving the spotlight changes only the view's spotlight. The new spotlight is the projected post with the new id. |
| Factories.Store.constructor | test.js:12-27 | The store holds exactly the given snapshot. |
| Factories.Store.LoadCollections | src/factories.js:10 | The collections become the given list. Nothing else changes. |
| Factories.Store.AddCollection | src/factories.js:11 | Appends one collection at the end. Nothing else changes. |
| Factories.Store.LoadUsers | src/factories.js:18 | The users become the given list. Nothing else changes. |
| Factories.Store.AddUser | src/factories.js:19 | Appends one user at the end. Nothing else changes. |
| Factories.Store.LoadHubs | src/factories.js:29 | The hubs become the given list. Nothing else changes. |
| Factories.Store.AddHub | src/factories.js:30 | Appends one hub at the end. Nothing else changes. |
| Factories.Store.LoadPosts | src/factories.js:41-44 | The posts become the given list. Nothing else changes. |
| Factories.Store.AddPost | src/factories.js:45 | Appends one post at the end. Nothing else changes. |
| Factories.Store.RequestPostsCompleted | src/factories.js:58-65 | Once the batch is applied, the domain posts and the feed's post list both equal the batch, the feed as ids. Nothing else changes. When the batch's ids are distinct, the app's feed then lists exactly the batch, resolved, in batch order. |
| Factories.Store.AddPostCompleted | src/factories.js:66-71 | The post is appended to the domain posts and its id to the feed's list. Nothing else changes. The app's feed gains one element at its end, naming the post, and every feed element that was resolved before keeps its value. |
| Factories.Store.UpdateSpotlight | src/factories.js:72-74 | Only `feed.spotlight` changes, to the given id. In the app view only the spotlight moves, to the projected post with that id. |
| Stores.MergeUser | src/stores.js:18 | `Object.assign` of a patch onto a user: the id is kept, a name the patch carries overwrites the user's, and an absent name leaves it. |
| Stores.MergeTalk | src/stores.js:40 | `Object.assign` of a patch onto a talk: the id is kept, each field the patch carries overwrites the talk's, and each absent field is kept. |
| Stores.MergeTalkLaws | src/stores.js:40 | Merging the same patch twice equals merging it once. A patch carrying no field leaves the talk unchanged. Two patches in turn equal one patch in which the later patch's fields win. |
| Stores.MergeUserLaws | src/stores.js:18 | The same three laws for the users store's merge. |
| Stores.UpdateKeepsTalkIds | src/stores.js:37-43 | Merging into the matched talk leaves the list of ids unchanged. Distinct ids therefore stay distinct. |
| Stores.UsersStore.constructor | src/stores.js:4-5 | The store holds the given users. |
| Stores.UsersStore.Add | src/stores.js:9-14 | Appends x at the end. Earlier elements are unchanged. |
| Stores.UsersStore.UpdateTalk | src/stores.js:15-20 | It succeeds exactly when some user has the patch's id. It then changes only the first such user: the id is kept, a carried field is overwritten, an absent one is kept, and the length and all other elements are unchanged. Otherwise nothing changes. |
| Stores.TalksStore.constructor | src/stores.js:25-26 | The store holds the given talks. |
| Stores.TalksStore.Load | src/stores.js:27-29 | The store becomes the given list. |
| Stores.TalksStore.Add | src/stores.js:30-36 | Appends x at the end. Earlier elements are unchanged. |
| Stores.TalksStore.UpdateTalk | src/stores.js:37-43 | Only the first talk with the patch's id changes. Its id is kept, carried fields are overwritten and absent ones kept. If no talk has the id, it fails and nothing changes. |
| Stores.FeedStore.constructor | src/stores.js:47-48 | The feed keeps the talks store it is handed, plus the seed's spotlight and ids. |
| Stores.FeedStore.RequestTalksCompleted | src/stores.js:52-60 | Once the batch is applied, the talks store and the feed's list both equal the batch, the feed as ids. The spotlight is unchanged. |
| Stores.FeedStore.UpdateSpotlight | src/stores.js:61-66 | Only the spotlight id changes. The feed's talks and the talks store are unchanged. |
| Stores.Root.constructor | src/stores.js:71-77 | It builds fresh users, talks and feed stores holding the snapshot. The feed shares the returned talks store. |
| Stores.Root.RequestTalksCompleted | src/stores.js:71-77 | A batch applied through `store.feed` lands in the returned `store.talks` and in the feed. Nothing else changes. |
| Transforms.MakeUsers | src/transforms.js:5-6 | `users$` is the users store element for element. |
| Transforms.MakeTalks | src/transforms.js:8-12 | It has the same length and order as the talks. Id and title are kept. `user` is `findById(t.user.id, users$)`. |
| Transforms.MakeFeed | src/transforms.js:14-21 | The spotlight is the first projected talk with the pointer's id, or absent exactly when none has it. `talks` has the feed list's length and order, and element i is the lookup of the i-th id. |
| Transforms.MakeTransforms | src/transforms.js:23-33 | The presenters keep the stores. `users$` is the users store. `talks$` is `MakeTalks` over the stores' talks and users. `feed$` is `MakeFeed` applied to `talks$`, so the feed resolves against the projected talks. |
| Transforms.FeedTalksJoin | src/transforms.js:23-33 | Feed talk i is absent exactly when no stored talk has the i-th id. Otherwise it is the first such talk, with its user resolved. |
| Transforms.SpotlightJoin | src/transforms.js:23-33 | The spotlight is the first stored talk with the pointer's id, with its user resolved, or absent. |
| Transforms.RequestTalksFeedFollowsBatch | src/stores.js:52-60 | Once a batch with distinct ids is applied, `feed$.talks` is the batch, resolved, in batch order. |
| Transforms.UpdateSpotlightOnlyMovesSpotlight | src/transforms.js:14-21 | Moving the spotlight changes only `feed$.spotlight` and the stored pointer. |
| Transforms.UpdateTalkReflected | src/transforms.js:8-12 | After a merge at position k, `talks$[k]` shows the merged title and user. Every other projected talk is unchanged. |
| Scenario.InitialFeed | test.js:36-46 | The initial feed lists post 1 resolved to "Programming" and "Gary Bernhardt". The spotlight is that post. The hub's account is "Uncle Bob". |
| Scenario.AddedUserResolves | test.js:49 | The user added with id 11 is found by id after the append. |
| Scenario.FeedAfterRequest | test.js:55-64 | After the batch, the feed titles are the three batch titles in order. The second post's user is the added user. |
| Scenario.SpotlightAfterMove | test.js:66-68 | With the spotlight moved to post 2, it shows "Value of Values", collection "FP" and the added user. |

## Left out

- The MobX machinery is not modelled: `createTransformer` memoisation, observables, `autorun`, and strict-mode actions with their dependency tracking. It is a foreign library whose code is not part of this model. The projections are plain functions and no cache is modelled.
- Asynchrony is not modelled: the Promise `.then` callbacks and the `setTimeout` deferral. Only the state after a fetched batch has been applied is modelled. Each `*Completed` method applies its steps in the source's order.
- There is no state for the interval in `requestPosts` when the domain posts are already loaded but `feed.posts` is not yet replaced.
- src/api.js is not part of this model. A fetched batch, or a post echoed by `addPost`, is a method parameter.
- `requestTalks` calls `api.fetchTalks`, which src/api.js does not define. Only the effect of a batch that arrives is modelled.
- test.js hydrates through `fromJS` → `makeStores` with a `{domain, ui}` snapshot that `makeStores` does not read. This wiring is not modelled. `Factories.Store` is built directly from a snapshot.
- src/fromJS.js wraps `makeStores` in an action. That wrapping is not modelled beyond the `Store` constructor.
- `trace` only logs to the console and is not modelled.
- `makeApp`'s writes of the projections into `store.ui` are not kept as store state. They are the local bindings of `MakeApp`, and `makeFeed` reads them back within the same call.
- Records are fixed datatypes. `Object.assign` in `updateTalk` is modelled for the fields a record has: a patch carries each field or leaves it out. A patch cannot add a new key.
- Records are values, not shared objects. A record mutated in place and aliased from a second list is not modelled. The batch objects are one case: MobX copies them into each observable array anyway.
- The feed lists (`feed.posts`, `feed.collections`, `feed.talks`) hold ids only. The feed view reads nothing but `.id` from their elements, so pushing or replacing whole posts or talks is modelled as pushing or replacing their ids.
- Ids are unbounded integers. JavaScript numbers and Ramda's `equals` on non-integer ids are not modelled.
- The talks spotlight uses strict equality (`===`) where `findById` uses Ramda's `propEq`. On integer ids these agree, so `Transforms.MakeFeed` uses `findById`, and its contract states the first-match meaning directly.
- A record missing a reference field makes the source throw a `TypeError` (for example a hub without `account`). The datatypes always carry these fields, so this case does not arise in the model.
