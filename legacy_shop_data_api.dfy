/** The earlier lookup endpoint the legacy snippet calls: a domain guard, a
    not-found guard, and the stored selections object passed through
    unchanged with caching disabled. No response carries CORS headers. */
module LegacyShopDataApi {
  import opened Common
  import opened Store

  datatype Body = ErrorBody(error: string) | SelectionsBody(selections: Selections)

  datatype Response = Response(status: int, body: Body, headers: seq<(string, string)>)

  const NoStore: seq<(string, string)> := [("Cache-Control", "no-store")]

  /** The loader, given the `domain` query parameter. */
  function Loader(domain: Option<string>, shops: map<string, ShopRecord>): Response
  {
    if !Truthy(domain) then Response(400, ErrorBody("Missing shop domain"), [])
    else if domain.value !in shops then Response(404, ErrorBody("Shop not found"), [])
    else Response(200, SelectionsBody(shops[domain.value].selections), NoStore)
  }

  // ---- Properties ----

  /** A missing or empty domain is a 400 without headers. */
  lemma MissingDomain(domain: Option<string>, shops: map<string, ShopRecord>)
    ensures Loader(domain, shops).status == 400 <==> domain.None? || domain == Some("")
    ensures Loader(domain, shops).status == 400 ==> Loader(domain, shops) == Response(400, ErrorBody("Missing shop domain"), [])
  {
  }

  /** An unknown domain is a 404 without headers. */
  lemma UnknownDomain(domain: string, shops: map<string, ShopRecord>)
    requires domain != ""
    ensures Loader(Some(domain), shops).status == 404 <==> domain !in shops
    ensures domain !in shops ==> Loader(Some(domain), shops) == Response(404, ErrorBody("Shop not found"), [])
  {
  }

  /** A known domain gets its stored selections, both lists as stored, and
      only this response disables caching; none carries CORS headers. */
  lemma PassThrough(domain: Option<string>, shops: map<string, ShopRecord>)
    ensures var r := Loader(domain, shops);
            && (Truthy(domain) && domain.value in shops ==>
                  r.body.SelectionsBody? && r.body.selections == shops[domain.value].selections)
            && (r.headers == [("Cache-Control", "no-store")] <==> r.status == 200)
            && (r.status != 200 ==> r.headers == [])
            && (forall k :: 0 <= k < |r.headers| ==> r.headers[k].0 != "Access-Control-Allow-Origin")
  {
  }
}
