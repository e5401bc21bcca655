/** The like and save buttons of app/components/ReviewCard.tsx: optimistic
    toggles of the card's state, one backend mutation each, and a compensating
    update when the backend reports an error. The session lookup and the
    backend's verdict are inputs; the mutation sent is returned. */
module ReviewCard {
  import opened Js
  import opened Types

  datatype Table = Likes | Saves

  /** A row insert or a `delete().match(...)` on (user_id, review_id). */
  datatype Mutation =
    | Insert(table: Table, userId: string, reviewId: string)
    | Delete(table: Table, userId: string, reviewId: string)

  /** `Math.max(0, x)` */
  function Max0(x: int): int {
    if x < 0 then 0 else x
  }

  /** The updater handed to `setLikesCount`: one more for a like, one fewer,
      never below zero, for an unlike. */
  function LikeUpdate(liked: bool, prev: int): (r: int)
    ensures prev >= 0 ==> r >= 0
    ensures liked ==> r == prev + 1
    ensures !liked && prev >= 1 ==> r == prev - 1
    ensures !liked && prev <= 0 ==> r == 0
  {
    if liked then prev + 1 else Max0(prev - 1)
  }

  /** The optimistic update followed by its compensation: the count comes back
      exactly, except that an unlike clamped at zero comes back as one. */
  lemma LikeRollback(wasLiked: bool, count: int)
    ensures LikeUpdate(wasLiked, LikeUpdate(!wasLiked, count)) ==
      (if wasLiked then (if count < 1 then 1 else count) else Max0(count))
    ensures count >= 0 ==>
      LikeUpdate(wasLiked, LikeUpdate(!wasLiked, count)) == (if wasLiked && count == 0 then 1 else count)
  {
  }

  /** The mutation for the new toggle state: insert when it turns on, delete when it turns off. */
  function ToggleMutation(table: Table, on: bool, userId: string, reviewId: string): (m: Mutation)
    ensures m.table == table && m.userId == userId && m.reviewId == reviewId
    ensures m.Insert? <==> on
  {
    if on then Insert(table, userId, reviewId) else Delete(table, userId, reviewId)
  }

  class ReviewCardState {
    const reviewId: string
    var isLiked: bool
    var likesCount: int
    var isSaved: bool

    /** `useState(review.isLiked)`, `useState(review.likesCount)`, `useState(review.isSaved || false)` */
    constructor (review: Review)
      ensures reviewId == review.id
      ensures isLiked == review.isLiked && likesCount == review.likesCount
      ensures isSaved == (review.isSaved == Some(true))
    {
      reviewId := review.id;
      isLiked := review.isLiked;
      likesCount := review.likesCount;
      isSaved := review.isSaved == Some(true);
    }

    /** `handleLike` up to the backend call. Without a session user nothing
        happens; otherwise the like flips, the count moves, and the mutation
        for the new state is returned with that state. */
    method BeginLike(sessionUser: Option<string>) returns (mutation: Option<Mutation>, newLiked: bool)
      modifies this
      ensures sessionUser.None? ==>
        mutation.None? && isLiked == old(isLiked) && likesCount == old(likesCount)
      ensures sessionUser.Some? ==>
        && newLiked == !old(isLiked)
        && isLiked == newLiked
        && likesCount == LikeUpdate(newLiked, old(likesCount))
        && mutation == Some(ToggleMutation(Likes, newLiked, sessionUser.value, reviewId))
      ensures isSaved == old(isSaved)
    {
      newLiked := !isLiked;
      if sessionUser.None? {
        return None, newLiked;
      }
      isLiked := newLiked;
      likesCount := LikeUpdate(newLiked, likesCount);
      mutation := Some(ToggleMutation(Likes, newLiked, sessionUser.value, reviewId));
    }

    /** The `catch` of `handleLike`: on failure, the like goes back and the
        count is moved the other way. */
    method SettleLike(newLiked: bool, failed: bool)
      modifies this
      ensures failed ==> isLiked == !newLiked && likesCount == LikeUpdate(!newLiked, old(likesCount))
      ensures !failed ==> isLiked == old(isLiked) && likesCount == old(likesCount)
      ensures isSaved == old(isSaved)
    {
      if failed {
        isLiked := !newLiked;
        likesCount := LikeUpdate(!newLiked, likesCount);
      }
    }

    /** The whole `handleLike`, with `failed` the backend's verdict on the mutation. */
    method HandleLike(sessionUser: Option<string>, failed: bool) returns (mutation: Option<Mutation>)
      modifies this
      ensures sessionUser.None? ==>
        mutation.None? && isLiked == old(isLiked) && likesCount == old(likesCount)
      ensures sessionUser.Some? ==>
        && mutation == Some(ToggleMutation(Likes, !old(isLiked), sessionUser.value, reviewId))
        && mutation.value.table == Likes
        && mutation.value.userId == sessionUser.value && mutation.value.reviewId == reviewId
        && (mutation.value.Insert? <==> !old(isLiked))
      ensures sessionUser.Some? && !failed ==>
        isLiked == !old(isLiked) && likesCount == LikeUpdate(!old(isLiked), old(likesCount))
      ensures sessionUser.Some? && failed ==>
        && isLiked == old(isLiked)
        && likesCount == LikeUpdate(old(isLiked), LikeUpdate(!old(isLiked), old(likesCount)))
      ensures sessionUser.Some? && failed && old(likesCount) >= 0 ==>
        likesCount == (if old(isLiked) && old(likesCount) == 0 then 1 else old(likesCount))
      ensures old(likesCount) >= 0 ==> likesCount >= 0
      ensures isSaved == old(isSaved)
    {
      var newLiked;
      mutation, newLiked := BeginLike(sessionUser);
      if mutation.Some? {
        SettleLike(newLiked, failed);
        LikeRollback(!newLiked, old(likesCount));
      }
    }

    /** `handleSave` up to the backend call. */
    method BeginSave(sessionUser: Option<string>) returns (mutation: Option<Mutation>, newSaved: bool)
      modifies this
      ensures sessionUser.None? ==> mutation.None? && isSaved == old(isSaved)
      ensures sessionUser.Some? ==>
        && newSaved == !old(isSaved)
        && isSaved == newSaved
        && mutation == Some(ToggleMutation(Saves, newSaved, sessionUser.value, reviewId))
      ensures isLiked == old(isLiked) && likesCount == old(likesCount)
    {
      newSaved := !isSaved;
      if sessionUser.None? {
        return None, newSaved;
      }
      isSaved := newSaved;
      mutation := Some(ToggleMutation(Saves, newSaved, sessionUser.value, reviewId));
    }

    /** The `catch` of `handleSave`. */
    method SettleSave(newSaved: bool, failed: bool)
      modifies this
      ensures isSaved == if failed then !newSaved else old(isSaved)
      ensures isLiked == old(isLiked) && likesCount == old(likesCount)
    {
      if failed {
        isSaved := !newSaved;
      }
    }

    /** The whole `handleSave`: the flag flips, and a failure restores it exactly. */
    method HandleSave(sessionUser: Option<string>, failed: bool) returns (mutation: Option<Mutation>)
      modifies this
      ensures sessionUser.None? ==> mutation.None? && isSaved == old(isSaved)
      ensures sessionUser.Some? ==>
        && mutation == Some(ToggleMutation(Saves, !old(isSaved), sessionUser.value, reviewId))
        && mutation.value.table == Saves
        && mutation.value.userId == sessionUser.value && mutation.value.reviewId == reviewId
        && (mutation.value.Insert? <==> !old(isSaved))
        && isSaved == (if failed then old(isSaved) else !old(isSaved))
      ensures isLiked == old(isLiked) && likesCount == old(likesCount)
    {
      var newSaved;
      mutation, newSaved := BeginSave(sessionUser);
      if mutation.Some? {
        SettleSave(newSaved, failed);
      }
    }
  }
}
