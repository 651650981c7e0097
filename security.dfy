/** The JSON body guard used by the API routes: the declared content type must be JSON,
    the body must stay within a size bound, and it must parse. JSON parsing itself is an
    oracle `jsonParse`, None standing for a parse exception. */
module Security {
  import opened Common
  import Strings

  /** The bound used when the caller gives none. */
  const DefaultMaxBytes := 20000

  const JsonMediaType := "application/json"

  /** `parseJson(request, maxBytes)`: content-type test, then size test, then parse. The
      length is the body's length in characters, not in encoded bytes. */
  function ParseJson<T>(contentType: Option<string>, raw: string, maxBytes: int,
                        jsonParse: string -> Option<T>): (r: Result<T, ApiError>)
    ensures !Strings.Contains(OrElse(contentType, ""), JsonMediaType) ==>
              r == Err(BadRequest(WrongContentType))
    ensures Strings.Contains(OrElse(contentType, ""), JsonMediaType) && |raw| > maxBytes ==>
              r == Err(BadRequest(PayloadTooLarge))
    ensures r.Ok? <==> Strings.Contains(OrElse(contentType, ""), JsonMediaType) &&
                       |raw| <= maxBytes && jsonParse(raw).Some?
    ensures r.Ok? ==> r.value == jsonParse(raw).value
    ensures Strings.Contains(OrElse(contentType, ""), JsonMediaType) && |raw| <= maxBytes &&
              jsonParse(raw).None?
            ==> r == Err(BadRequest(InvalidJson))
  {
    var ct := OrElse(contentType, "");
    if !Strings.Contains(ct, JsonMediaType) then Err(BadRequest(WrongContentType))
    else if |raw| > maxBytes then Err(BadRequest(PayloadTooLarge))
    else match jsonParse(raw)
      case None => Err(BadRequest(InvalidJson))
      case Some(v) => Ok(v)
  }

  /** The guard order: a wrong content type is reported whatever the body and the parser,
      and an oversized body is reported whatever the parser. */
  lemma GuardOrder<T>(contentType: Option<string>, raw: string, raw2: string, maxBytes: int,
                      p1: string -> Option<T>, p2: string -> Option<T>)
    ensures !Strings.Contains(OrElse(contentType, ""), JsonMediaType) ==>
              ParseJson(contentType, raw, maxBytes, p1) == ParseJson(contentType, raw2, maxBytes, p2)
    ensures |raw| > maxBytes ==>
              ParseJson(contentType, raw, maxBytes, p1) == ParseJson(contentType, raw, maxBytes, p2)
  {
  }

  /** A body of exactly `maxBytes` characters is not rejected for its size. */
  lemma BoundIsInclusive<T>(raw: string, jsonParse: string -> Option<T>)
    requires |raw| == DefaultMaxBytes && jsonParse(raw).Some?
    ensures ParseJson(Some("application/json; charset=utf-8"), raw, DefaultMaxBytes, jsonParse)
              == Ok(jsonParse(raw).value)
  {
    assert Strings.OccursAt("application/json; charset=utf-8", JsonMediaType, 0);
  }
}
