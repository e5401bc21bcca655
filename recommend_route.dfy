/** The grounded recommendation call of app/api/recommend/route.ts: one
    map-grounded provider request, biased to the caller's coordinates or to a
    fixed fallback pair, whose answer is normalised to `{ text, sources }`.
    The provider is an oracle from the request to how the call settles. */
module RecommendRoute {
  import opened Js
  import opened Types

  datatype LatLng = LatLng(latitude: real, longitude: real)

  const Model := "gemini-2.5-flash"
  /** San Francisco, used when no location is available. */
  const FallbackLatLng := LatLng(37.7749, -122.4194)
  const NoRecommendations := "I couldn't find specific recommendations for that right now."

  const PromptHead := "Find restaurants and cafes that satisfy these cravings: "
  const PromptMiddle := ". \n  Take note of these dietary restrictions: "
  const PromptTail := ".\n  Suggest local places and explain why they are a good match."

  datatype Tool = GoogleMaps

  /** The `generateContent` argument: model, prompt, tools and the retrieval bias. */
  datatype Request = Request(model: string, contents: string, tools: seq<Tool>, latLng: LatLng)

  datatype GroundingMetadata = GroundingMetadata(groundingChunks: Option<seq<Chunk>>)
  datatype Candidate = Candidate(groundingMetadata: Option<GroundingMetadata>)
  datatype GroundedResponse = GroundedResponse(text: Option<string>, candidates: Option<seq<Candidate>>)

  datatype Reply = Answered(response: GroundedResponse) | Failed(error: Error)

  function Prompt(cravings: string, restrictions: string): string {
    PromptHead + Quoted(cravings) + PromptMiddle + Quoted(restrictions) + PromptTail
  }

  /** Both inputs stand verbatim inside double quotes, cravings first. */
  lemma PromptEmbedsInputs(cravings: string, restrictions: string)
    ensures OccursAt(Prompt(cravings, restrictions), Quoted(cravings), |PromptHead|)
    ensures OccursAt(Prompt(cravings, restrictions), Quoted(restrictions),
                     |PromptHead| + |Quoted(cravings)| + |PromptMiddle|)
  {
    Regroup(PromptHead, Quoted(cravings), PromptMiddle, Quoted(restrictions), PromptTail);
    OccursInConcat(PromptHead, Quoted(cravings), PromptMiddle + (Quoted(restrictions) + PromptTail));
    OccursInConcat(PromptHead + Quoted(cravings) + PromptMiddle, Quoted(restrictions), PromptTail);
  }

  function RetrievalLatLng(location: Option<LatLng>): LatLng {
    if location.Some? then LatLng(location.value.latitude, location.value.longitude)
    else FallbackLatLng
  }

  function BuildRequest(cravings: string, restrictions: string, location: Option<LatLng>): Request {
    Request(Model, Prompt(cravings, restrictions), [GoogleMaps], RetrievalLatLng(location))
  }

  /** Every request carries the maps tool, and the bias is the caller's pair or the fallback. */
  lemma RequestShape(cravings: string, restrictions: string, location: Option<LatLng>)
    ensures var r := BuildRequest(cravings, restrictions, location);
      && r.tools == [GoogleMaps]
      && r.model == Model
      && r.contents == Prompt(cravings, restrictions)
      && (location.Some? ==> r.latLng == location.value)
      && (location.None? ==> r.latLng.latitude == 37.7749 && r.latLng.longitude == -122.4194)
  {
  }

  /** `response.candidates?.[0]?.groundingMetadata?.groundingChunks || []`.
      An array is truthy even when empty, so present chunks are kept as they are. */
  function Sources(response: GroundedResponse): seq<Chunk> {
    match response.candidates
    case None => []
    case Some(cs) =>
      if |cs| == 0 then []
      else match cs[0].groundingMetadata
        case None => []
        case Some(m) => match m.groundingChunks
          case None => []
          case Some(chunks) => chunks
  }

  /** Every link of `candidates[0].groundingMetadata.groundingChunks` is present. */
  predicate HasChunks(response: GroundedResponse) {
    && response.candidates.Some? && |response.candidates.value| > 0
    && response.candidates.value[0].groundingMetadata.Some?
    && response.candidates.value[0].groundingMetadata.value.groundingChunks.Some?
  }

  /** The chunks of the first candidate when the whole chain is present, and none otherwise. */
  lemma SourcesOfFirstCandidate(response: GroundedResponse)
    ensures HasChunks(response) ==>
      Sources(response) == response.candidates.value[0].groundingMetadata.value.groundingChunks.value
    ensures !HasChunks(response) ==> Sources(response) == []
  {
  }

  /** `getAIFoodRecommendations(cravings, restrictions, location)` */
  function GetAIFoodRecommendations(
    cravings: string, restrictions: string, location: Option<LatLng>, provider: Request -> Reply): (o: Outcome)
    ensures o.Thrown? <==> provider(BuildRequest(cravings, restrictions, location)).Failed?
    ensures o.Returned? ==> o.result.text != ""
  {
    match provider(BuildRequest(cravings, restrictions, location))
    case Failed(e) => Thrown(e)
    case Answered(response) =>
      Returned(RecommendationResult(OrElse(response.text, NoRecommendations), Sources(response)))
  }

  /** A failure is rethrown unchanged; an answer keeps its text (or the default,
      so the text is never empty) and the first candidate's sources. */
  lemma RecommendationOutcome(
    cravings: string, restrictions: string, location: Option<LatLng>, provider: Request -> Reply)
    ensures var reply, o := provider(BuildRequest(cravings, restrictions, location)),
                            GetAIFoodRecommendations(cravings, restrictions, location, provider);
      && (reply.Failed? ==> o == Thrown(reply.error))
      && (reply.Answered? ==>
            && o.Returned?
            && o.result.sources == Sources(reply.response)
            && o.result.text != ""
            && (Truthy(reply.response.text) ==> o.result.text == reply.response.text.value)
            && (!Truthy(reply.response.text) ==> o.result.text == NoRecommendations))
  {
  }

  /** There is exactly one provider call: two providers that settle that one
      request alike give the same outcome, whatever they do on other requests. */
  lemma SingleCall(
    cravings: string, restrictions: string, location: Option<LatLng>, p1: Request -> Reply, p2: Request -> Reply)
    requires p1(BuildRequest(cravings, restrictions, location)) == p2(BuildRequest(cravings, restrictions, location))
    ensures GetAIFoodRecommendations(cravings, restrictions, location, p1) ==
            GetAIFoodRecommendations(cravings, restrictions, location, p2)
  {
  }
}
