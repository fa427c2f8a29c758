/** Likes: at most one row per (image, user); liking again removes the row. */
module Likes {
  import opened Common
  import opened Records

  /** Like rows as (image id, user id) pairs. */
  type LikeRows = set<(string, string)>

  /** Public images may be liked by anyone, private ones only by their owner. */
  predicate CanLike(image: ImageRecord, userId: string)
  {
    image.isPublic || image.ownerId == userId
  }

  /** The rows after one toggle of `row`. */
  function Toggle(likes: LikeRows, row: (string, string)): (r: LikeRows)
    ensures row in r <==> row !in likes
    ensures forall other :: other != row ==> (other in r <==> other in likes)
  {
    if row in likes then likes - {row} else likes + {row}
  }

  function LikersOf(likes: LikeRows, imageId: string): set<(string, string)>
  {
    set row | row in likes && row.0 == imageId
  }

  /** `like.count({ where: { imageId } })`. */
  function LikeCount(likes: LikeRows, imageId: string): nat
  {
    |LikersOf(likes, imageId)|
  }

  datatype LikeStatus = LikeStatus(liked: bool, likeCount: nat)

  /** `getLikeStatus`: whether this user likes the image and how many do.
      It does not look the image up, so an unknown id reads as not liked by
      anybody. */
  function GetLikeStatus(likes: LikeRows, userId: string, imageId: string): (s: LikeStatus)
    ensures s.liked <==> (imageId, userId) in likes
    ensures s.likeCount >= (if s.liked then 1 else 0)
    ensures s.likeCount == LikeCount(likes, imageId)
  {
    assert (imageId, userId) in likes ==> (imageId, userId) in LikersOf(likes, imageId);
    LikeStatus((imageId, userId) in likes, LikeCount(likes, imageId))
  }

  /** Toggling twice restores the rows. */
  lemma ToggleTwice(likes: LikeRows, row: (string, string))
    ensures Toggle(Toggle(likes, row), row) == likes
  {
  }

  /** One toggle flips the user's status and moves the image's count by one in
      that direction; other images' counts stay as they were. */
  lemma ToggleMovesCount(likes: LikeRows, userId: string, imageId: string)
    ensures var after := Toggle(likes, (imageId, userId));
      var before := GetLikeStatus(likes, userId, imageId);
      var now := GetLikeStatus(after, userId, imageId);
      && now.liked == !before.liked
      && now.likeCount == (if before.liked then before.likeCount - 1 else before.likeCount + 1)
      && (forall other :: other != imageId ==> LikeCount(after, other) == LikeCount(likes, other))
  {
    var row := (imageId, userId);
    var after := Toggle(likes, row);
    if row in likes {
      assert LikersOf(after, imageId) == LikersOf(likes, imageId) - {row};
    } else {
      assert LikersOf(after, imageId) == LikersOf(likes, imageId) + {row};
    }
    forall other | other != imageId
      ensures LikeCount(after, other) == LikeCount(likes, other)
    {
      assert LikersOf(after, other) == LikersOf(likes, other);
    }
  }

  class LikeTable {
    var likes: LikeRows

    constructor (initial: LikeRows)
      ensures likes == initial
    {
      likes := initial;
    }

    /** `toggleLike`: 404 for an unknown image, 403 for someone else's private
        image, otherwise the row is flipped and the new state reported. */
    method ToggleLike(userId: string, imageId: string, images: map<string, ImageRecord>)
      returns (status: Status, liked: Option<bool>)
      modifies this
      ensures imageId !in images ==> status == NotFound && liked == None && likes == old(likes)
      ensures imageId in images && !CanLike(images[imageId], userId) ==>
        status == Forbidden && liked == None && likes == old(likes)
      ensures imageId in images && CanLike(images[imageId], userId) ==>
        && status == Ok
        && likes == Toggle(old(likes), (imageId, userId))
        && liked == Some((imageId, userId) in likes)
    {
      if imageId !in images {
        return NotFound, None;
      }
      if !CanLike(images[imageId], userId) {
        return Forbidden, None;
      }
      if (imageId, userId) in likes {
        likes := likes - {(imageId, userId)};
        liked := Some(false);
      } else {
        likes := likes + {(imageId, userId)};
        liked := Some(true);
      }
      status := Ok;
    }
  }
}
