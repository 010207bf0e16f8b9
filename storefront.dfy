/** What the storefront snippets see of the shopper's page and of the
    lookup response: the `window` fields they read, the product JSON element,
    the fetched selection payload, and the document elements they create. */
module Storefront {
  import opened Common
  import opened JsString

  /** `window.meta.product`. */
  datatype MetaProduct = MetaProduct(id: Option<string>)

  /** `window.meta.page`. */
  datatype MetaPage = MetaPage(pageType: Option<string>, resourceId: Option<string>)

  /** `window.meta`. */
  datatype Meta = Meta(product: Option<MetaProduct>, page: Option<MetaPage>)

  /** The `ProductJson-product-template` element: absent, holding JSON that
      parses to any value but `null` (whose `id` is missing when the value
      is a primitive or an object without one), or holding text whose parse
      fails or yields `null` (reading `id` of `null` throws). */
  datatype ProductJson = NoProductJson | ProductJsonParsed(id: Option<string>) | ProductJsonInvalid

  /** The page as the snippet sees it. */
  datatype PageContext = PageContext(pathname: string, meta: Option<Meta>, productJson: ProductJson)

  /** A field of the selection payload or of a stored selections object:
      absent, an array, a string, or any other JSON value (`null`, a number,
      a boolean, an object) with its JavaScript truthiness. */
  datatype FieldValue = Missing | ArrayValue(items: seq<string>) | StringValue(text: string) | OtherValue(truthy: bool)

  /** JavaScript truthiness of a field: every array is truthy, a string when
      it is non-empty, `undefined` never. */
  predicate FieldTruthy(v: FieldValue)
  {
    match v
    case Missing => false
    case ArrayValue(_) => true
    case StringValue(text) => text != ""
    case OtherValue(truthy) => truthy
  }

  /** The parsed lookup response: the JSON literal `null`, or an object. */
  datatype Payload = NullPayload | ObjectPayload(selectedPages: FieldValue, selectedProducts: FieldValue)

  /** How the `fetch` ended: a network failure, or a response with its `ok`
      flag and its body (`None` when `response.json()` fails). */
  datatype FetchOutcome = NetworkFailure | HttpResponse(ok: bool, body: Option<Payload>)

  /** Where a snippet run ends: the page kind has no check, nothing is
      selected, the current item is selected (activation), it is not, or a
      `TypeError` on a `null` payload ends the run in the final `catch`. */
  datatype Decision = NotApplicable | NoSelection | Selected | NotSelected | Failed

  /** An element created with `document.createElement`. */
  datatype DomElement = DomElement(tag: string, attributes: seq<(string, string)>, text: string)

  const ProductGidPrefix := "gid://shopify/Product/"

  /** `window.location.pathname.includes("/products/")`. */
  predicate IsProductPage(ctx: PageContext)
  {
    Includes(ctx.pathname, "/products/")
  }

  /** `window.meta.product.id`, when every link of that chain exists. */
  function MetaProductId(ctx: PageContext): Option<string>
  {
    if ctx.meta.Some? && ctx.meta.value.product.Some? then ctx.meta.value.product.value.id else None
  }

  /** The fallback through the product JSON element: the namespaced id of the
      parsed value, or nothing when the element is absent, its parse fails or
      it parses to `null`. */
  function ProductJsonId(j: ProductJson): (r: Option<string>)
    ensures r.Some? <==> j.ProductJsonParsed?
    ensures r.Some? ==> r.value == ProductGidPrefix + Interpolate(j.id)
  {
    match j
    case ProductJsonParsed(id) => Some(ProductGidPrefix + Interpolate(id))
    case _ => None
  }

  /** The selection normalisation both snippets apply to a payload field:
      an array is used as it is, a string is split on commas, anything else
      is the empty list. */
  function Normalise(v: FieldValue): seq<string>
  {
    match v
    case ArrayValue(items) => items
    case StringValue(text) => Split(text, ',')
    case _ => []
  }

  /** Normalisation is lossless for arrays and strings and empty otherwise;
      a string never normalises to the empty list (`"".split(",")` is `[""]`). */
  lemma NormaliseCases(v: FieldValue)
    ensures v.ArrayValue? ==> Normalise(v) == v.items
    ensures v.StringValue? ==> |Normalise(v)| >= 1 && Join(Normalise(v), ',') == v.text
    ensures v.StringValue? ==> forall k :: 0 <= k < |Normalise(v)| ==> ',' !in Normalise(v)[k]
    ensures (v.Missing? || v.OtherValue?) ==> Normalise(v) == []
    ensures Normalise(v) == [] <==> v.Missing? || v.OtherValue? || v == ArrayValue([])
  {
    if v.StringValue? {
      JoinSplit(v.text, ',');
    }
  }
}
