/** The review feed of app/components/Feed.tsx: the normalisation of joined
    database rows into reviews, and the loading / error state around the query.
    How the session lookup and the query settle are inputs; the query sent
    is returned. */
module Feed {
  import opened Js
  import opened Types

  const DefaultUserName := "Anonymous"
  const DefaultContent := ""
  const DefaultLocation := "NYC"
  const DefaultImageUrl := "https://images.unsplash.com/photo-1504674900247-0877df9cc836?auto=format&fit=crop&q=80"
  const UnexpectedErrorMessage := "An unexpected error occurred."

  /** The placeholder avatar for a user without one. */
  function DefaultAvatar(userId: string): string {
    "https://picsum.photos/seed/" + userId + "/100/100"
  }

  datatype Profile = Profile(fullName: Option<string>, username: Option<string>, avatarUrl: Option<string>)
  datatype LikeRow = LikeRow(userId: string)
  datatype CommentRow = CommentRow(id: string)

  /** A `reviews` row with its joined profile, likes and comments; `None` for a
      joined field stands for a value that is not an array. */
  datatype Row = Row(
    id: string,
    userId: string,
    profiles: Option<Profile>,
    restaurantName: string,
    rating: real,
    content: Option<string>,
    imageUrl: Option<string>,
    createdAt: string,
    location: Option<string>,
    likes: Option<seq<LikeRow>>,
    comments: Option<seq<CommentRow>>)

  /** How `auth.getSession()` settles: the signed-in user's id, if any, or an exception. */
  datatype SessionLookup = Session(userId: Option<string>) | SessionThrew(thrown: Error)

  /** How the reviews query settles: data and an error object as Supabase
      returns them, or an exception. */
  datatype FeedQuery =
    | Answered(data: Option<seq<Row>>, error: Option<Error>)
    | Crashed(thrown: Error)

  /** The reviews select with its profile (inner), likes and comments joins,
      ordered by `orderBy`. */
  datatype ReviewsSelect = ReviewsSelect(profilesInner: bool, orderBy: string, ascending: bool)

  /** `select('*, profiles!inner (...), likes (...), comments (...)').order('created_at', { ascending: false })` */
  const ReviewsQuery := ReviewsSelect(true, "created_at", false)

  /** `likes.some(l => l.user_id === userId)` */
  function LikedBy(likes: seq<LikeRow>, userId: string): (r: bool)
    ensures r <==> exists i :: 0 <= i < |likes| && likes[i].userId == userId
  {
    if likes == [] then false
    else likes[0].userId == userId || LikedBy(likes[1..], userId)
  }

  function LengthOr0<T>(o: Option<seq<T>>): nat {
    if o.Some? then |o.value| else 0
  }

  function ProfileField(p: Option<Profile>, avatar: bool): Option<string> {
    if p.None? then None else if avatar then p.value.avatarUrl else p.value.fullName
  }

  /** One element of `data.map(item => ({ ... }))`; `dateText` is the locale's
      rendering of a timestamp. */
  function FormatRow(row: Row, currentUserId: Option<string>, dateText: string -> string): (r: Review)
    ensures r.likesCount == LengthOr0(row.likes) && r.commentsCount == LengthOr0(row.comments)
    ensures r.isLiked <==>
      Truthy(currentUserId) && row.likes.Some? &&
      exists i :: 0 <= i < |row.likes.value| && row.likes.value[i].userId == currentUserId.value
    ensures r.id == row.id && r.userId == row.userId && r.restaurantName == row.restaurantName
    ensures r.isSaved == None
  {
    Review(
      id := row.id,
      userId := row.userId,
      userName := OrElse(ProfileField(row.profiles, false), DefaultUserName),
      userAvatar := OrElse(ProfileField(row.profiles, true), DefaultAvatar(row.userId)),
      restaurantName := row.restaurantName,
      rating := row.rating,
      content := OrElse(row.content, DefaultContent),
      imageUrl := OrElse(row.imageUrl, DefaultImageUrl),
      timestamp := dateText(row.createdAt),
      location := OrElse(row.location, DefaultLocation),
      likesCount := LengthOr0(row.likes),
      commentsCount := LengthOr0(row.comments),
      isLiked := if Truthy(currentUserId) && row.likes.Some? then LikedBy(row.likes.value, currentUserId.value) else false,
      isSaved := None)
  }

  /** Absent or empty fields get their defaults: 'Anonymous', '' and 'NYC'. */
  lemma FormatRowDefaults(row: Row, currentUserId: Option<string>, dateText: string -> string)
    ensures var r := FormatRow(row, currentUserId, dateText);
      && (row.profiles.None? || !Truthy(row.profiles.value.fullName) ==> r.userName == "Anonymous")
      && (row.profiles.Some? && Truthy(row.profiles.value.fullName) ==> r.userName == row.profiles.value.fullName.value)
      && (row.content.Some? ==> r.content == row.content.value)
      && (row.content.None? ==> r.content == "")
      && (Truthy(row.location) ==> r.location == row.location.value)
      && (!Truthy(row.location) ==> r.location == "NYC")
  {
  }

  /** No user, or no likes array, means not liked; a zero count means not liked. */
  lemma LikedNeedsUserAndLike(row: Row, currentUserId: Option<string>, dateText: string -> string)
    ensures var r := FormatRow(row, currentUserId, dateText);
      && (!Truthy(currentUserId) ==> !r.isLiked)
      && (r.likesCount == 0 ==> !r.isLiked)
  {
  }

  /** `data.map(...)`: one review per row, in the order the query returned them. */
  function FormatRows(rows: seq<Row>, currentUserId: Option<string>, dateText: string -> string): (r: seq<Review>)
    ensures |r| == |rows|
    ensures forall i :: 0 <= i < |rows| ==> r[i] == FormatRow(rows[i], currentUserId, dateText)
  {
    if rows == [] then []
    else [FormatRow(rows[0], currentUserId, dateText)] + FormatRows(rows[1..], currentUserId, dateText)
  }

  class FeedView {
    var reviews: seq<Review>
    var loading: bool
    var fetchError: Option<string>

    constructor ()
      ensures reviews == [] && loading && fetchError == None
    {
      reviews, loading, fetchError := [], true, None;
    }

    /** The first two statements of `fetchReviews`. */
    method BeginFetch()
      modifies this
      ensures loading && fetchError == None && reviews == old(reviews)
    {
      loading := true;
      fetchError := None;
    }

    /** The `try`/`catch`/`finally` of `fetchReviews` once the session lookup
        and, if it got that far, the query settled; the query is sent only
        after the session lookup returned. */
    method CompleteFetch(session: SessionLookup, query: FeedQuery, dateText: string -> string)
      returns (sent: Option<ReviewsSelect>)
      modifies this
      ensures !loading
      ensures session.SessionThrew? ==>
        && sent.None?
        && fetchError == Some(OrElse(session.thrown.message, UnexpectedErrorMessage))
        && reviews == old(reviews)
      ensures session.Session? ==> sent == Some(ReviewsQuery)
      ensures session.Session? && query.Answered? && query.error.Some? ==>
        fetchError == query.error.value.message && reviews == old(reviews)
      ensures session.Session? && query.Answered? && query.error.None? && query.data.Some? ==>
        fetchError == old(fetchError) && reviews == FormatRows(query.data.value, session.userId, dateText)
      ensures session.Session? && query.Answered? && query.error.None? && query.data.None? ==>
        fetchError == old(fetchError) && reviews == old(reviews)
      ensures session.Session? && query.Crashed? ==>
        fetchError == Some(OrElse(query.thrown.message, UnexpectedErrorMessage)) && reviews == old(reviews)
    {
      match session {
        case SessionThrew(err) =>
          sent := None;
          fetchError := Some(OrElse(err.message, UnexpectedErrorMessage));
        case Session(currentUserId) =>
          sent := Some(ReviewsQuery);
          match query {
            case Crashed(err) =>
              fetchError := Some(OrElse(err.message, UnexpectedErrorMessage));
            case Answered(data, error) =>
              if error.Some? {
                fetchError := error.value.message;
              } else if data.Some? {
                reviews := FormatRows(data.value, currentUserId, dateText);
              }
          }
      }
      loading := false;
    }

    /** The whole `fetchReviews`: the error is cleared first, so afterwards it is
        set only by this fetch's failure, and loading is off on every path. */
    method FetchReviews(session: SessionLookup, query: FeedQuery, dateText: string -> string)
      returns (sent: Option<ReviewsSelect>)
      modifies this
      ensures !loading
      ensures sent == if session.Session? then Some(ReviewsQuery) else None
      ensures session.SessionThrew? ==>
        fetchError == Some(OrElse(session.thrown.message, UnexpectedErrorMessage))
      ensures session.Session? && query.Answered? && query.error.None? ==> fetchError == None
      ensures session.Session? && query.Answered? && query.error.Some? ==>
        fetchError == query.error.value.message
      ensures session.Session? && query.Crashed? ==>
        fetchError == Some(OrElse(query.thrown.message, UnexpectedErrorMessage))
      ensures reviews ==
        if session.Session? && query.Answered? && query.error.None? && query.data.Some?
        then FormatRows(query.data.value, session.userId, dateText) else old(reviews)
    {
      BeginFetch();
      sent := CompleteFetch(session, query, dateText);
    }
  }
}
