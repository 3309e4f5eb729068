/** `generate_itinerary_response` after the language model has answered:
    find the JSON object in the reply, parse it, enrich it, and turn every
    failure on the way into an error response. */
module Planner {
  import opened Results
  import opened PyJson
  import opened Extraction
  import opened Enrichment

  const ExcerptLength: nat := 300

  /** `streamed` is the model's reply, joined; `parse` is `json.loads`, with
      its JSONDecodeError given as the text `str(e)`. */
  method GenerateItineraryResponse(streamed: string, parse: string -> Result<Json, string>)
    returns (response: Response)
    ensures ExtractJson(streamed).None? ==>
      response == ErrorResponse("No valid JSON found", Take(streamed, ExcerptLength))
    ensures ExtractJson(streamed).None? ==>
      |response.rawResponse| == (if |streamed| < ExcerptLength then |streamed| else ExcerptLength)
      && response.rawResponse <= streamed
    ensures ExtractJson(streamed).Some? && parse(ExtractJson(streamed).value).Failure? ==>
      response == ErrorResponse("JSON parse failed: " + parse(ExtractJson(streamed).value).error,
                                ExtractJson(streamed).value)
    ensures ExtractJson(streamed).Some? && parse(ExtractJson(streamed).value).Success? ==>
      var enriched := Enriched(parse(ExtractJson(streamed).value).value);
      && (enriched.Success? ==> response == enriched.value)
      && (enriched.Failure? ==>
            response == ErrorResponse("JSON parse failed: " + Message(enriched.error),
                                      ExtractJson(streamed).value))
  {
    var jsonMatch := ExtractJson(streamed);
    if jsonMatch.Some? {
      var rawJson := jsonMatch.value;
      var parsed := parse(rawJson);
      if parsed.Failure? {
        return ErrorResponse("JSON parse failed: " + parsed.error, rawJson);
      }
      var enriched := EnrichWithMaps(parsed.value);
      if enriched.Failure? {
        return ErrorResponse("JSON parse failed: " + Message(enriched.error), rawJson);
      }
      return enriched.value;
    } else {
      return ErrorResponse("No valid JSON found", Take(streamed, ExcerptLength));
    }
  }
}
