# DishDrop logic model

DishDrop is a social restaurant-review app. Its screens are React components
that talk to a Supabase backend and to the Gemini API. This project models the
logic under that markup, one Dafny module per source file, and proves what each
piece promises:

- `GeminiService` covers `findRestaurantsByCraving`:
  - the prompt, with its coordinates or its "in a major city" phrase;
  - the bounded, sequential retry loop and its exponential backoff;
  - the retryable classification;
  - the mapping of the last failure to the error the caller sees.

  The provider is an oracle `respond(i)` that says how attempt `i` settles.
  The loop is a `method` proved equal to the specification function `Run`.
  The lemmas about `Run` give the number of calls, the waits and the outcome
  in closed form.
- `RecommendRoute` covers `getAIFoodRecommendations`. It makes one
  map-grounded call, biased to the caller's coordinates or to the San Francisco
  fallback pair. The answer gets a default text, and its sources are taken from
  the first candidate.
- `Discovery` covers the search panel:
  - the blank-craving guard, and the loading/results state around the call;
  - the first-match choice of link and title across web, search-entry and maps
    citations;
  - the numbering of the rendered sources.
- `ReviewCard` covers the optimistic like and save toggles. Each toggle sends
  one insert or delete, and a failure applies a compensating update.
- `Feed` covers the normalisation of joined `reviews` rows into reviews, and the
  loading/error state of `fetchReviews`.
- `Header` covers the notification list:
  - prepend on a realtime insert;
  - replace on fetch;
  - "mark all read";
  - the unread badge;
  - the bell and avatar pop-overs.
- `Auth` covers the mock sign-in. It builds the user handed to `onLogin`, with
  the username slug "lower-case, each white-space run becomes one `_`". It also
  covers the loading and mode flags.
- `PostReview` covers the composer form: the star rating, its hover preview and
  highlight rule, the reset, and publishing (which only resets and closes).
- `Js` holds JavaScript semantics used throughout:
  - truthiness of optional strings and `a || b`;
  - substring search;
  - ASCII white space and lower-casing.
- `Types` mirrors `User` and `Review` of `app/types/types.ts`. It adds the
  citation chunks, the `{ text, sources }` result of the two recommendation
  calls (`RecommendationResult`), and the error and outcome shapes of a settled
  call.

Components whose handlers update React state become classes whose fields are
that state. An `async` handler with a visible intermediate state is split into
two parts: a method up to the awaited call, and a method for how it settles.
A third method composes the two. The network, the timer and the browser are
inputs: how each call settles is a parameter. The provider requests and the
database queries and mutations a handler sends are returned as values; the
session lookups are only inputs.

The model follows the code in four places that are easy to misread:

- 500 counts as retryable only inside the message; 429 counts inside the
  message or as the status. So a bare `status: 500` is not retried
  (geminiService.ts:41).
- A `status: 429` error whose message does not say "429" is retried, but at the
  end it is rethrown as it is, not turned into the rate-limit message
  (geminiService.ts:55-59).
- The location of `findRestaurantsByCraving` is `{ lat, lng }`. Without one
  the prompt says "in a major city"; only the grounded route uses fixed
  coordinates.
- `Review.content` is declared as a number in `app/types/types.ts:18`. The feed
  stores the row's text there, so the model's `Review.content` is a string. The
  feed's `likesCount`, `commentsCount` and `isLiked` fields, and the card's
  `isSaved`, are part of the model's `Review`.

## Model

| member | source | states |
|---|---|---|
| GeminiService.LocationContext | app/services/geminiService.ts:14-16 | definition of the location phrase; its occurrence in the prompt is `PromptLocationPhrase` |
| GeminiService.Prompt | app/services/geminiService.ts:18-23 | definition of the prompt; its properties are the four `Prompt...` lemmas |
| GeminiService.PromptEmbedsCraving | app/services/geminiService.ts:18-23 | the craving stands verbatim between double quotes right after "I am craving: " |
| GeminiService.PromptLocationPhrase | app/services/geminiService.ts:14-19 | the prompt contains "Near coordinates lat, lng" when a location is given and "in a major city" otherwise |
| GeminiService.PromptInjectiveInCraving | app/services/geminiService.ts:18-23 | for one location, equal prompts mean equal cravings |
| GeminiService.PromptDistinguishesLocation | app/services/geminiService.ts:14-19 | a prompt with a location never equals the one without |
| GeminiService.IsRetryable | app/services/geminiService.ts:41 | definition of the retryable test; its consequences are `RetryableClassification` |
| GeminiService.RetryableClassification | app/services/geminiService.ts:41 | status 429 is retryable; with no "429"/"500" in the message only status 429 is; a bare status 500 is not |
| GeminiService.Backoffs | app/services/geminiService.ts:43-46 | k retries wait 1000, 2000, 4000, ... ms, entry j being 2^j * 1000 |
| GeminiService.BackoffsTotal | app/services/geminiService.ts:43-46 | k retries wait (2^k - 1) * 1000 ms in all |
| GeminiService.Terminal | app/services/geminiService.ts:55-59 | once the loop has stopped, the call always throws |
| GeminiService.TerminalMapping | app/services/geminiService.ts:55-59 | after the loop: rate-limit message when the last message says 429, else the last error, else the generic error |
| GeminiService.StatusOnlyRateLimitRethrown | app/services/geminiService.ts:41-59 | a status-429 error without "429" in its message is retried but finally rethrown unchanged |
| GeminiService.ResolvedText | app/services/geminiService.ts:34-36 | a success returns its text, or the placeholder when empty or absent, and no sources |
| GeminiService.RetryFrom | app/services/geminiService.ts:26-59 | the loop from iteration i as a specification function; closed form in `RetryFromClosedForm` |
| GeminiService.Run | app/services/geminiService.ts:25-59 | the whole loop from iteration 0; closed form in `RunClosedForm`, met by `FindRestaurantsByCraving` |
| GeminiService.RetryFromClosedForm | app/services/geminiService.ts:26-53 | from any iteration up to the stopping attempt: its outcome, calls and backoffs in closed form |
| GeminiService.RunClosedForm | app/services/geminiService.ts:25-59 | maxRetries <= 0: no call and the generic error; otherwise k + 1 calls, the first k backoffs and the stopping attempt's outcome |
| GeminiService.CallsBounded | app/services/geminiService.ts:26 | the provider is called at most maxRetries times, at least once when maxRetries > 0 |
| GeminiService.WaitSchedule | app/services/geminiService.ts:43-47 | one wait fewer than calls, wait j is 2^j * 1000 ms, and they sum to (2^k - 1) * 1000 |
| GeminiService.FirstSuccessReturns | app/services/geminiService.ts:34-36 | the first success ends the run at once with its text or the placeholder, and no sources |
| GeminiService.NonRetryableStops | app/services/geminiService.ts:50-51 | a non-retryable failure ends the run after that attempt without a wait and is rethrown |
| GeminiService.ExhaustedRetries | app/services/geminiService.ts:43-59 | all attempts retryable: exactly maxRetries calls, and the last error decides what is thrown |
| GeminiService.AllRateLimited | app/services/geminiService.ts:55-57 | every attempt failing with 429: maxRetries calls and the rate-limit message |
| GeminiService.TwoRateLimitsThenSuccess | app/services/geminiService.ts:26-47 | two 429s then a success with the default 3 attempts: 3 calls, waits [1000, 2000], the success returned |
| GeminiService.FindRestaurantsByCraving | app/services/geminiService.ts:7-59 | the loop's outcome, call count and waits are those of `Run`, and every call sends the same model and prompt |
| RecommendRoute.GetAIFoodRecommendations | app/api/recommend/route.ts:6-45 | the call throws exactly when the provider fails; an answer always has a non-empty text |
| RecommendRoute.Prompt | app/api/recommend/route.ts:13-15 | definition of the prompt; its property is `PromptEmbedsInputs` |
| RecommendRoute.PromptEmbedsInputs | app/api/recommend/route.ts:13-15 | cravings and restrictions stand verbatim inside double quotes, cravings first |
| RecommendRoute.BuildRequest | app/api/recommend/route.ts:18-35 | definition of the request; its shape is `RequestShape` |
| RecommendRoute.RequestShape | app/api/recommend/route.ts:18-35 | the request has the model, the prompt, the maps tool, and the caller's pair or (37.7749, -122.4194) |
| RecommendRoute.Sources | app/api/recommend/route.ts:39 | definition of the source extraction; its meaning is `SourcesOfFirstCandidate` |
| RecommendRoute.SourcesOfFirstCandidate | app/api/recommend/route.ts:39 | sources are the first candidate's grounding chunks, or empty when a link of that chain is missing |
| RecommendRoute.RecommendationOutcome | app/api/recommend/route.ts:17-44 | a failure is rethrown unchanged; an answer keeps its text or the default (never empty) and the sources |
| RecommendRoute.SingleCall | app/api/recommend/route.ts:17-44 | the outcome depends only on how its one provider request settles |
| Discovery.FirstTruthy | app/components/Discovery.tsx:123 | the first non-empty of the three values in order, none when all are falsy |
| Discovery.Link | app/components/Discovery.tsx:123 | definition of the link; its order is `LinkPrecedence` |
| Discovery.Title | app/components/Discovery.tsx:124 | a title is never empty |
| Discovery.LinkPrecedence | app/components/Discovery.tsx:123 | the link is web.uri, else search_entry.url, else maps.uri, the first non-empty one |
| Discovery.TitlePrecedence | app/components/Discovery.tsx:124 | the title is web, search-entry or maps title in that order, else 'View Details' |
| Discovery.LinksSound | app/components/Discovery.tsx:122-135 | every entry shows the link and title of a linked source, labelled with its index plus one |
| Discovery.LinksOrdered | app/components/Discovery.tsx:122-135 | entries keep the order of their sources |
| Discovery.LinksComplete | app/components/Discovery.tsx:122-135 | every source with a link gives an entry labelled with its index plus one |
| Discovery.LinksDropUnlinked | app/components/Discovery.tsx:125 | a source without a link leaves fewer entries than sources; that it gives no entry of its own is `LinksSound` |
| Discovery.SourceLinks | app/components/Discovery.tsx:122-135 | the rendered entries; their properties are `SourceLinksAgainstCount` |
| Discovery.MatchesCount | app/components/Discovery.tsx:104 | the "Found N Matches" number; compared with the entries in `SourceLinksAgainstCount` |
| Discovery.SourceLinksAgainstCount | app/components/Discovery.tsx:104-135 | the "Found N" count is all sources; entries are sound, ordered and complete, and fewer than N when a source has no link |
| Discovery.UngroundedResultsHaveNoSources | app/components/Discovery.tsx:104-125 | results of the ungrounded service always show 0 matches and no entries |
| Discovery.DiscoveryView.constructor | app/components/Discovery.tsx:5-7 | empty craving, not loading, no results |
| Discovery.DiscoveryView.SetCraving | app/components/Discovery.tsx:57 | the craving is the typed text, nothing else changes |
| Discovery.DiscoveryView.BeginSearch | app/components/Discovery.tsx:9-14 | a blank craving changes nothing; otherwise loading is on and the results are cleared |
| Discovery.DiscoveryView.CompleteSearch | app/components/Discovery.tsx:29-35 | success stores the results, a thrown error is swallowed, loading is off either way |
| Discovery.DiscoveryView.HandleSearch | app/components/Discovery.tsx:9-36 | a blank craving sends no request and changes nothing; otherwise every request carries the prompt of the typed craving and the location, as many as the run makes, and the search ends not loading with the run's results or none |
| ReviewCard.LikeUpdate | app/components/ReviewCard.tsx:22 | a like adds one; an unlike subtracts one, floored at 0; a non-negative count stays non-negative |
| ReviewCard.LikeRollback | app/components/ReviewCard.tsx:34-35 | update then compensation restores the count, except an unlike clamped at 0 comes back as 1 |
| ReviewCard.ToggleMutation | app/components/ReviewCard.tsx:25-30 | definition of the mutation; `HandleLike` and `HandleSave` say which one is sent |
| ReviewCard.ReviewCardState.constructor | app/components/ReviewCard.tsx:11-13 | the state starts from the review, `isSaved` false unless true |
| ReviewCard.ReviewCardState.BeginLike | app/components/ReviewCard.tsx:16-22 | no session user: nothing changes; otherwise the like flips, the count moves and the matching mutation is issued |
| ReviewCard.ReviewCardState.SettleLike | app/components/ReviewCard.tsx:32-35 | on failure the like goes back and the count moves the other way |
| ReviewCard.ReviewCardState.HandleLike | app/components/ReviewCard.tsx:16-37 | the whole like: flip and move, or on failure the original flag and the restored count; the count never goes negative |
| ReviewCard.ReviewCardState.BeginSave | app/components/ReviewCard.tsx:39-44 | no session user: nothing changes; otherwise the save flips and the matching mutation is issued |
| ReviewCard.ReviewCardState.SettleSave | app/components/ReviewCard.tsx:54-57 | on failure the save goes back |
| ReviewCard.ReviewCardState.HandleSave | app/components/ReviewCard.tsx:39-58 | the save flips, and a failure restores it exactly; likes are untouched |
| Feed.LikedBy | app/components/Feed.tsx:66 | true iff some like's user id equals the given one |
| Feed.FormatRow | app/components/Feed.tsx:52-68 | counts are array lengths or 0; liked iff a user id exists and one of the likes is theirs; ids and name carried over |
| Feed.FormatRowDefaults | app/components/Feed.tsx:55-62 | absent or empty fields become 'Anonymous', '' and 'NYC'; present ones are kept |
| Feed.LikedNeedsUserAndLike | app/components/Feed.tsx:65-67 | no current user, or no likes, means not liked |
| Feed.FormatRows | app/components/Feed.tsx:52-69 | one review per row, same length, same order |
| Feed.FeedView.constructor | app/components/Feed.tsx:10-12 | no reviews, loading, no error |
| Feed.FeedView.BeginFetch | app/components/Feed.tsx:19-20 | loading on and the error cleared |
| Feed.FeedView.CompleteFetch | app/components/Feed.tsx:22-76 | the newest-first reviews query is sent after the session lookup; a query error sets its message and keeps the reviews; data replaces them; an exception sets its message or the default; loading ends |
| Feed.FeedView.FetchReviews | app/components/Feed.tsx:18-77 | the newest-first query is sent unless the session lookup threw; the error is exactly this fetch's failure message (or "An unexpected error occurred."), loading ends on every path, reviews change only on data |
| Header.AnyUnread | app/components/Header.tsx:66 | true iff some notification is unread |
| Header.MarkedRead | app/components/Header.tsx:84 | same length and order, every entry read, other fields unchanged |
| Header.MarkedReadSettles | app/components/Header.tsx:84 | after marking, nothing is unread, and marking again changes nothing |
| Header.MarkedReadOfAllRead | app/components/Header.tsx:84 | marking a list that is all read leaves it as it is |
| Header.HeaderState.constructor | app/components/Header.tsx:21-24 | both pop-overs closed, no badge, no notifications |
| Header.HeaderState.OnRealtimeInsert | app/components/Header.tsx:42-45 | the new notification goes first and the badge lights up |
| Header.HeaderState.FetchNotifications | app/components/Header.tsx:54-71 | asks for the newest 5; data replaces the list and sets the badge to "any unread"; an error changes nothing |
| Header.HeaderState.BeginMarkAsRead | app/components/Header.tsx:73-83 | no badge: nothing; otherwise the badge goes out and the update is issued |
| Header.HeaderState.CompleteMarkAsRead | app/components/Header.tsx:84-87 | unless the update threw, the list is marked read |
| Header.HeaderState.MarkAsRead | app/components/Header.tsx:73-88 | the whole `markAsRead`: a no-op without the badge, otherwise badge off and list marked read unless it threw |
| Header.HeaderState.HandleBellClick | app/components/Header.tsx:90-96 | the panel toggles, the menu closes, and only opening the panel marks read |
| Header.HeaderState.AvatarClick | app/components/Header.tsx:187 | the menu toggles and the panel closes |
| Auth.Underscored | app/components/Auth.tsx:26 | the result has no white space and is no longer than the input |
| Auth.Slug | app/components/Auth.tsx:26 | the sign-up username has no white space |
| Auth.UnderscoredWord | app/components/Auth.tsx:26 | a word without white space is unchanged |
| Auth.UnderscoredJoin | app/components/Auth.tsx:26 | each maximal white-space run between a word and the rest becomes exactly one '_' |
| Auth.MockUser | app/components/Auth.tsx:23-31 | id 'me', counts 0, fixed avatar and bio; login gives 'Jordan Foodie'/'jordan_eats', sign-up the typed name and its slug |
| Auth.LoginIgnoresName | app/components/Auth.tsx:25-26 | in login mode the user does not depend on the typed name |
| Auth.SignUpUsername | app/components/Auth.tsx:26 | "First  Last" signs up as "first_last" (lower-cased words joined by one '_') |
| Auth.AuthForm.constructor | app/components/Auth.tsx:11-15 | login mode, empty fields, not loading |
| Auth.AuthForm.SetName | app/components/Auth.tsx:90 | only the name changes |
| Auth.AuthForm.SetEmail | app/components/Auth.tsx:108 | only the email changes |
| Auth.AuthForm.SetPassword | app/components/Auth.tsx:125 | only the password changes |
| Auth.AuthForm.HandleSubmit | app/components/Auth.tsx:17-22 | loading starts and a 1500 ms timer captures the current mode and name |
| Auth.AuthForm.OnTimeout | app/components/Auth.tsx:22-34 | the mock user of the captured mode and name goes to `onLogin`, then loading ends |
| Auth.AuthForm.Submit | app/components/Auth.tsx:17-35 | submit then timeout: the mock user of the mode and name at submit time, loading off |
| Auth.AuthForm.ToggleMode | app/components/Auth.tsx:152 | the mode flips, nothing else changes |
| PostReview.EffectiveRating | app/components/PostReview.tsx:83 | definition of the effective rating `hoverRating \|\| rating`; its consequences are `StarRowIsPrefix` and `PostReviewForm.Highlights` |
| PostReview.IsHighlighted | app/components/PostReview.tsx:83 | definition of the highlight test; the row of five is `StarRow` |
| PostReview.StarRow | app/components/PostReview.tsx:76-84 | definition of the rendered row of five stars; its shape is `StarRowIsPrefix` |
| PostReview.StarRowIsPrefix | app/components/PostReview.tsx:76-84 | exactly the first "effective rating" stars are lit |
| PostReview.LeaveRestoresRating | app/components/PostReview.tsx:80-83 | with no hover the lit stars are those up to the rating |
| PostReview.PostReviewForm.Highlights | app/components/PostReview.tsx:76-84 | in a valid form the lit stars are exactly the first "effective rating" ones |
| PostReview.PostReviewForm.constructor | app/components/PostReview.tsx:7-11 | closed, ratings 0, empty texts |
| PostReview.PostReviewForm.SetOpen | app/components/PostReview.tsx:22 | only the modal flag changes; ratings stay in 0..5 |
| PostReview.PostReviewForm.SetRestaurant | app/components/PostReview.tsx:68 | only the restaurant text changes; ratings stay in 0..5 |
| PostReview.PostReviewForm.SetReview | app/components/PostReview.tsx:97 | only the review text changes; ratings stay in 0..5 |
| PostReview.PostReviewForm.ClickStar | app/components/PostReview.tsx:81 | the rating becomes the star clicked and stays in 0..5 |
| PostReview.PostReviewForm.EnterStar | app/components/PostReview.tsx:79 | the hover rating becomes the star, so the preview shows it |
| PostReview.PostReviewForm.LeaveStar | app/components/PostReview.tsx:80 | the hover rating drops to 0, so the committed rating shows |
| PostReview.PostReviewForm.ResetForm | app/components/PostReview.tsx:13-17 | rating 0, both texts empty, hover rating and modal flag untouched |
| PostReview.PostReviewForm.Publish | app/components/PostReview.tsx:105 | the form resets and the modal closes; nothing is submitted |

## Left out

- Network calls to Gemini and Supabase are inputs. Each is an oracle or a parameter saying how the call settles. HTTP, row-level security and realtime delivery are not modelled.
- Timing: `delay`, the Auth `setTimeout` and the async suspension points. Waits are recorded as millisecond values.
- Concurrency between handlers is not modelled. Examples are a second like before the first settles, or a realtime insert that arrives while `markAsRead` awaits (`prev.map` would mark it read too). Each handler runs to completion before the next one starts.
- Browser APIs are not modelled: geolocation (the location is an input), `console.*` and `preventDefault`.
- The text of numbers in the prompt: `${location.lat}` is rendered by a parameter `show`, not by JavaScript's number-to-string conversion.
- Feed.FormatRow: `toLocaleDateString` is a parameter `dateText`, and `Number(item.rating)` is assumed to yield the row's numeric rating.
- Whitespace and case: `trim`, `\s` and `toLowerCase` are modelled on ASCII only. Unicode white space and case mapping are not.
- Header.HeaderState.FetchNotifications: the `.limit(5)` is part of the query returned. Keeping it is the backend's job, so the list's length is not bounded by the model.
- Header.HeaderState.MarkAsRead: the update's `{ error }` result is not consulted by the source either. Only an exception skips the local update.
- GeminiService.FindRestaurantsByCraving: `maxRetries` is an integer. A fractional or `NaN` argument is not modelled.
- Configuration: the API keys read from `process.env` and the construction of the Gemini clients (geminiService.ts, route.ts) are not modelled. The model name is a constant and each call is a request value.
- The `GroundingSource`, `Recommendation` and `AppTab` declarations of `app/types/types.ts` are not modelled. No modelled code builds the first two. The tab buttons of the header call the page's `setActiveTab`, which belongs to `app/page.tsx`, and app/page.tsx is not part of this model.
- Thrown values that are not error objects (`throw undefined`, a falsy error) are not modelled. Every failure carries an `Error` record.
- Rendering: JSX, styling and the rendered text other than the "Found N Matches" count and the source entries.
