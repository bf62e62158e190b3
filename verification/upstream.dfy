/**
 * What one upstream call can produce, standing in for the HTTP client and
 * its JSON decoder (backend/app.py:37-43), and the Content-Type test the
 * handler applies before decoding.
 */
module Upstream {
  import opened Wrappers
  import Text

  /** The decoded JSON object's fields the handler reads. */
  datatype Payload = Payload(
    success: Option<bool>,               // the "success" field, None when missing
    error: Option<string>,               // the "error" field, None when missing
    rates: Option<map<string, real>>)    // the "rates" object, None when missing

  /** Decoding the body: either a payload or the decoder's error message. */
  datatype Decoded = Malformed(message: string) | Parsed(payload: Payload)

  /** One upstream call. */
  datatype Outcome =
    | NetworkFailure(message: string)      // the request itself raised
    | Received(
        contentType: Option<string>,       // the Content-Type header, None when absent
        text: string,                      // the raw body
        json: Decoded)                     // what decoding that body gives

  /** The marker the handler looks for in the Content-Type header. */
  const JSON_MEDIA_TYPE: string := "application/json"

  /**
   * The body is treated as JSON when the Content-Type header, read as the
   * empty string when absent, contains "application/json" anywhere.
   */
  function IsJson(contentType: Option<string>): (json: bool)
    ensures json <==> Text.Occurs(JSON_MEDIA_TYPE, contentType.GetOr(""))
    ensures contentType.None? ==> !json
  {
    Text.ContainsIffOccurs(JSON_MEDIA_TYPE, contentType.GetOr(""));
    Text.Contains(JSON_MEDIA_TYPE, contentType.GetOr(""))
  }

  /** A header with parameters after the media type still counts as JSON. */
  lemma JsonWithCharset()
    ensures IsJson(Some("application/json; charset=utf-8"))
    ensures !IsJson(Some("text/html"))
  {
    assert Text.OccursAt(JSON_MEDIA_TYPE, "application/json; charset=utf-8", 0);
  }
}
