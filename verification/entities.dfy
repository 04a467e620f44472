/**
 * The normalised records of both experiments. A reference to another record
 * is held as that record's id only.
 */
module Entities {
  import Utils

  datatype User = User(id: int, name: string)

  datatype Collection = Collection(id: int, name: string)

  /** A tagged account reference, such as `{ type: 'user', id: 9 }`. */
  datatype AccountRef = AccountRef(kind: string, id: int)

  datatype Hub = Hub(id: int, name: string, account: AccountRef)

  datatype Post = Post(id: int, title: string, collectionId: int, userId: int)

  datatype Talk = Talk(id: int, title: string, userId: int)

  function UserId(u: User): int { u.id }
  function CollectionId(c: Collection): int { c.id }
  function HubId(h: Hub): int { h.id }
  function PostId(p: Post): int { p.id }
  function TalkId(t: Talk): int { t.id }

  /** The ids of a batch of posts, in batch order. */
  function PostIds(xs: seq<Post>): (r: seq<int>)
    ensures |r| == |xs|
    ensures forall i :: 0 <= i < |xs| ==> r[i] == xs[i].id
  {
    Utils.MapSeq(PostId, xs)
  }

  /** The ids of a batch of talks, in batch order. */
  function TalkIds(xs: seq<Talk>): (r: seq<int>)
    ensures |r| == |xs|
    ensures forall i :: 0 <= i < |xs| ==> r[i] == xs[i].id
  {
    Utils.MapSeq(TalkId, xs)
  }
}
