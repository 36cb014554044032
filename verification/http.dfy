/**
 HTTP responses of the three edge functions (delete-user,
 send-confirmation-email, send-email). They share one CORS header set and
 answer either an empty preflight body or a small JSON object.
 */
module Http {
  import opened Common

  /** The JSON bodies the functions produce: `null` (preflight),
      `{error: e}`, `{success: true}` and `{success: true, message: m}`. */
  datatype Body = NoBody | ErrorJson(error: string) | SuccessJson(message: Option<string>)

  datatype Response = Response(status: int, body: Body, headers: map<string, string>)

  const OptionsMethod: string := "OPTIONS"

  const CorsHeaders: map<string, string> := map[
    "Access-Control-Allow-Origin" := "*",
    "Access-Control-Allow-Headers" := "authorization, x-client-info, apikey, content-type"
  ]

  /** The response carries every CORS header with its value. */
  predicate CarriesCors(r: Response) {
    forall k :: k in CorsHeaders ==> k in r.headers && r.headers[k] == CorsHeaders[k]
  }

  /** `new Response(null, { headers: corsHeaders })`: status defaults to 200. */
  function Preflight(): (r: Response)
    ensures CarriesCors(r)
    ensures r.status == 200 && r.body.NoBody?
    ensures "Content-Type" !in r.headers
  {
    Response(200, NoBody, CorsHeaders)
  }

  /** A JSON response: the CORS headers plus `Content-Type: application/json`
      (the order of the spread in the source makes no difference, as the
      key sets are disjoint). */
  function JsonResponse(status: int, body: Body): (r: Response)
    ensures CarriesCors(r)
    ensures "Content-Type" in r.headers && r.headers["Content-Type"] == "application/json"
    ensures r.status == status && r.body == body
  {
    Response(status, body, CorsHeaders["Content-Type" := "application/json"])
  }
}
