/** The geocoding client `searchLocation`: a length guard that answers
    without a request, one request for the best match otherwise, the
    response body passed through unchanged, and every failure collapsed
    into one error. Match records are only copied, so their type is a
    parameter. */
module Locations {
  import opened Common
  import opened Text

  /** The geocoding response: `results` may be missing when nothing matched. */
  datatype GeocodingResponse<R> = GeocodingResponse(results: Option<seq<R>>)

  /** The query parameters of the geocoding request. */
  datatype GeocodingRequest = GeocodingRequest(name: string, count: string)

  const LocationError: string := "Failed to fetch location data"

  /** Queries this short are answered without asking the service; the
      length is JavaScript's, in UTF-16 code units. */
  predicate TooShort(query: string) {
    query == [] || Utf16Length(query) < 2
  }

  function SearchLocation<R>(query: string, transport: Transport<GeocodingResponse<R>>)
    : (c: Call<GeocodingRequest, GeocodingResponse<R>>)
    ensures Utf16Length(query) < 2 ==> c == Call(None, Ok(GeocodingResponse(Some([]))))
    ensures Utf16Length(query) >= 2 ==> c.request == Some(GeocodingRequest(query, "1"))
    ensures Utf16Length(query) >= 2 ==>
      (c.result.Ok? <==> transport.Response? && transport.ok && transport.body.Some?)
    ensures Utf16Length(query) >= 2 && c.result.Ok? ==> c.result.value == transport.body.value
    ensures c.result.Err? ==> c.result.error == LocationError
  {
    if TooShort(query) then Call(None, Ok(GeocodingResponse(Some([]))))
    else
      var request := GeocodingRequest(query, "1");
      match transport
      case Response(true, _, Some(body)) => Call(Some(request), Ok(body))
      case _ => Call(Some(request), Err(LocationError))
  }

  /** A short query sends nothing, so what the network would have done
      makes no difference. */
  lemma ShortQueryIgnoresTransport<R>(query: string, t1: Transport<GeocodingResponse<R>>, t2: Transport<GeocodingResponse<R>>)
    requires Utf16Length(query) < 2
    ensures SearchLocation(query, t1) == SearchLocation(query, t2)
    ensures SearchLocation(query, t1).request.None?
  {
  }

  /** An empty list of matches from the service is a result, not an error. */
  lemma NoMatchIsNotAnError<R>(query: string, status: int)
    requires Utf16Length(query) >= 2
    ensures SearchLocation<R>(query, Response(true, status, Some(GeocodingResponse(None)))).result
         == Ok(GeocodingResponse(None))
    ensures SearchLocation<R>(query, Response(true, status, Some(GeocodingResponse(Some([]))))).result
         == Ok(GeocodingResponse(Some([])))
  {
  }

  /** Any failure, at any stage, surfaces as the one error and never as a
      partial result. */
  lemma FailuresCollapse<R>(query: string, status: int, body: Option<GeocodingResponse<R>>)
    requires Utf16Length(query) >= 2
    ensures SearchLocation<R>(query, NetworkError).result == Err(LocationError)
    ensures SearchLocation(query, Response(false, status, body)).result == Err(LocationError)
    ensures SearchLocation<R>(query, Response(true, status, None)).result == Err(LocationError)
  {
  }

  /** One character outside the Basic Multilingual Plane already has length
      two, so it is sent to the service; one character inside it is not. */
  lemma OneCharacterQueries<R>(t: Transport<GeocodingResponse<R>>)
    ensures SearchLocation("\U{2000B}", t).request == Some(GeocodingRequest("\U{2000B}", "1"))
    ensures SearchLocation("a", t).request.None?
  {
    assert Utf16Length("\U{2000B}") == 2;
    assert Utf16Length("a") == 1;
  }
}
