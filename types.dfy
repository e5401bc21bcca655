/** The value shapes shared by the components (app/types/types.ts and the
    ad hoc object shapes of the recommendation calls). */
module Types {
  import opened Js

  datatype User = User(
    id: string,
    name: string,
    username: string,
    avatar: string,
    bio: string,
    following: int,
    followers: int)

  /** A feed review as Feed builds it. types.ts declares `content` as a number
      and lacks the three counters; the component stores a string and adds them.
      `isSaved` is read by ReviewCard but never set by Feed, so it is absent there. */
  datatype Review = Review(
    id: string,
    userId: string,
    userName: string,
    userAvatar: string,
    restaurantName: string,
    rating: real,
    content: string,
    imageUrl: string,
    timestamp: string,
    location: string,
    likesCount: nat,
    commentsCount: nat,
    isLiked: bool,
    isSaved: Option<bool>)

  /** The three citation shapes a grounding chunk may carry; each field is optional. */
  datatype WebRef = WebRef(uri: Option<string>, title: Option<string>)
  datatype SearchEntryRef = SearchEntryRef(url: Option<string>, title: Option<string>)
  datatype MapsRef = MapsRef(uri: Option<string>, title: Option<string>)

  datatype Chunk = Chunk(
    web: Option<WebRef>,
    searchEntry: Option<SearchEntryRef>,
    maps: Option<MapsRef>)

  /** `{ text, sources }`, the result both recommendation calls hand to the UI.
      It is not the `Recommendation` record of types.ts, which nothing in the
      modelled code builds. */
  datatype RecommendationResult = RecommendationResult(text: string, sources: seq<Chunk>)

  /** A JavaScript error object: an optional message and an optional status code. */
  datatype Error = Error(message: Option<string>, status: Option<int>)

  /** How an async call settles: a resolved value or a thrown error. */
  datatype Outcome = Returned(result: RecommendationResult) | Thrown(error: Error)

  /** `new Error(msg)` */
  function NewError(msg: string): Error {
    Error(Some(msg), None)
  }
}
