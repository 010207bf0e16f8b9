/** The public lookup endpoint the current storefront client calls: a
    preflight answer, then an ordered chain of guards (domain, type, record)
    and a body with the team hash and exactly the requested list. Every
    response carries the same three CORS headers. */
module ShopDataApi {
  import opened Common
  import opened Storefront
  import opened Store

  /** The parts of a request the loader reads; a query parameter that is
      absent is `None`. */
  datatype Request = Request(httpMethod: string, domain: Option<string>, dataType: Option<string>)

  /** The JSON body of a response: none (preflight), an error, or the team
      hash with exactly one selection list. */
  datatype Body =
    | EmptyBody
    | ErrorBody(error: string)
    | PagesBody(teamHash: Option<string>, selectedPages: FieldValue)
    | ProductsBody(teamHash: Option<string>, selectedProducts: FieldValue)

  datatype Response = Response(status: int, body: Body, headers: seq<(string, string)>)

  const CorsHeaders: seq<(string, string)> := [
    ("Access-Control-Allow-Origin", "*"),
    ("Access-Control-Allow-Methods", "GET, OPTIONS"),
    ("Access-Control-Allow-Headers", "Content-Type")]

  const MissingDomain := "Missing shop domain"
  const InvalidType := "Invalid data type"
  const ShopNotFound := "Shop not found"

  /** `list || []` for a stored value: a truthy value is passed on as it
      is, a falsy one becomes the empty array. */
  function OrEmpty(list: FieldValue): FieldValue
  {
    if FieldTruthy(list) then list else ArrayValue([])
  }

  /** The loader over the stored shop records. */
  function Loader(req: Request, shops: map<string, ShopRecord>): Response
  {
    if req.httpMethod == "OPTIONS" then Response(200, EmptyBody, CorsHeaders)
    else if !Truthy(req.domain) then Response(400, ErrorBody(MissingDomain), CorsHeaders)
    else if req.dataType != Some("pages") && req.dataType != Some("products") then Response(400, ErrorBody(InvalidType), CorsHeaders)
    else if req.domain.value !in shops then Response(404, ErrorBody(ShopNotFound), CorsHeaders)
    else
      var shop := shops[req.domain.value];
      if req.dataType == Some("pages") then Response(200, PagesBody(shop.teamHash, OrEmpty(shop.selections.selectedPages)), CorsHeaders)
      else Response(200, ProductsBody(shop.teamHash, OrEmpty(shop.selections.selectedProducts)), CorsHeaders)
  }

  // ---- Properties ----

  /** A preflight request is answered before any validation, with no body. */
  lemma PreflightFirst(req: Request, shops: map<string, ShopRecord>)
    requires req.httpMethod == "OPTIONS"
    ensures Loader(req, shops) == Response(200, EmptyBody, CorsHeaders)
  {
  }

  /** A missing or empty domain is rejected first, whatever the type. */
  lemma MissingDomainFirst(req: Request, shops: map<string, ShopRecord>)
    requires req.httpMethod != "OPTIONS"
    ensures (Loader(req, shops).body == ErrorBody("Missing shop domain")) <==> req.domain.None? || req.domain == Some("")
    ensures req.domain.None? || req.domain == Some("") ==> Loader(req, shops).status == 400
  {
  }

  /** With a domain, a type that is absent or not exactly "pages" or
      "products" is rejected. */
  lemma InvalidTypeRejected(req: Request, shops: map<string, ShopRecord>)
    requires req.httpMethod != "OPTIONS" && Truthy(req.domain)
    ensures (Loader(req, shops) == Response(400, ErrorBody("Invalid data type"), CorsHeaders)) <==>
              !(req.dataType == Some("pages") || req.dataType == Some("products"))
  {
  }

  /** A valid request for a domain without a record is a 404. */
  lemma UnknownShop(req: Request, shops: map<string, ShopRecord>)
    requires req.httpMethod != "OPTIONS" && Truthy(req.domain)
    requires req.dataType == Some("pages") || req.dataType == Some("products")
    ensures Loader(req, shops).status == 404 <==> req.domain.value !in shops
    ensures req.domain.value !in shops ==> Loader(req, shops).body == ErrorBody("Shop not found")
  {
  }

  /** A success carries the team hash and exactly the requested stored
      value, a falsy one being returned as the empty array. */
  lemma SuccessBody(req: Request, shops: map<string, ShopRecord>)
    requires req.httpMethod != "OPTIONS" && Truthy(req.domain) && req.domain.value in shops
    ensures var shop := shops[req.domain.value];
            && (req.dataType == Some("pages") ==>
                  Loader(req, shops) == Response(200, PagesBody(shop.teamHash,
                    if FieldTruthy(shop.selections.selectedPages) then shop.selections.selectedPages else ArrayValue([])), CorsHeaders))
            && (req.dataType == Some("products") ==>
                  Loader(req, shops) == Response(200, ProductsBody(shop.teamHash,
                    if FieldTruthy(shop.selections.selectedProducts) then shop.selections.selectedProducts else ArrayValue([])), CorsHeaders))
  {
  }

  /** Every response, success or error, carries the three CORS headers, and
      a 200 with a body happens exactly on the success path. */
  lemma AlwaysCors(req: Request, shops: map<string, ShopRecord>)
    ensures Loader(req, shops).headers == CorsHeaders
    ensures Loader(req, shops).status in {200, 400, 404}
    ensures (Loader(req, shops).body.PagesBody? || Loader(req, shops).body.ProductsBody?) <==>
              req.httpMethod != "OPTIONS" && Truthy(req.domain) && req.domain.value in shops &&
              (req.dataType == Some("pages") || req.dataType == Some("products"))
  {
  }

  /** `|| []` keeps arrays, non-empty strings and other truthy values as
      stored, and turns a missing value, the empty string and falsy values
      such as `null` into the empty array. */
  lemma OrEmptyCases(list: FieldValue)
    ensures list.ArrayValue? ==> OrEmpty(list) == list
    ensures list.StringValue? && list.text != "" ==> OrEmpty(list) == list
    ensures (list.Missing? || list == StringValue("") || list == OtherValue(false)) ==> OrEmpty(list) == ArrayValue([])
    ensures list.OtherValue? && list.truthy ==> OrEmpty(list) == list
  {
  }

  /** The record created on first authentication is served as an empty list
      of either kind, without a team hash. */
  lemma FreshRecordServesEmpty(domain: string, kind: string, shops: map<string, ShopRecord>)
    requires domain != "" && (kind == "pages" || kind == "products")
    ensures var r := Loader(Request("GET", Some(domain), Some(kind)), shops[domain := FreshRecord]);
            r.status == 200 && (r.body == PagesBody(None, ArrayValue([])) || r.body == ProductsBody(None, ArrayValue([])))
  {
  }
}
