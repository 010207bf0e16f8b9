/** The current storefront decision client: classify the page by its path,
    fetch only the selection list of that kind, work out the current product
    or page id from the page metadata, and decide whether the page is under
    test. Activation creates the testing script element but never attaches it. */
module StorefrontClient {
  import opened Common
  import opened JsString
  import opened Storefront

  /** `window.location.pathname.includes("/pages/")`. */
  predicate IsOnRegularPage(ctx: PageContext)
  {
    Includes(ctx.pathname, "/pages/")
  }

  /** The current product id: the metadata id as a bare string when it is
      truthy, otherwise the namespaced id from the product JSON element. */
  function CurrentProductId(ctx: PageContext): Option<string>
  {
    if Truthy(MetaProductId(ctx)) then MetaProductId(ctx) else ProductJsonId(ctx.productJson)
  }

  /** The current page id: the metadata resource id, only for pages of type
      "page" whose resource id is truthy. */
  function CurrentPageId(ctx: PageContext): Option<string>
  {
    if ctx.meta.Some? && ctx.meta.value.page.Some?
       && ctx.meta.value.page.value.pageType == Some("page")
       && Truthy(ctx.meta.value.page.value.resourceId)
    then ctx.meta.value.page.value.resourceId
    else None
  }

  /** The `type` query parameter of the lookup request. */
  function DataType(ctx: PageContext): string
  {
    if IsProductPage(ctx) then "products" else "pages"
  }

  /** The payload `checkCurrentPage` receives: the parsed response when the
      request succeeded, otherwise an empty list of only the requested kind. */
  function FetchSelectedItems(ctx: PageContext, outcome: FetchOutcome): Payload
  {
    match outcome
    case HttpResponse(true, Some(body)) => body
    case _ =>
      if IsProductPage(ctx) then ObjectPayload(Missing, ArrayValue([]))
      else ObjectPayload(ArrayValue([]), Missing)
  }

  /** `selectedPages.some((p) => p.includes(pageId))`. */
  predicate SomeIncludes(entries: seq<string>, id: string)
  {
    exists k | 0 <= k < |entries| :: Includes(entries[k], id)
  }

  /** `checkCurrentPage`: product pages need exact membership of a truthy id,
      regular pages a selected entry containing the page id; any other page
      has no check at all. */
  function CheckCurrentPage(ctx: PageContext, selections: Payload): Decision
  {
    if IsProductPage(ctx) then
      if selections.NullPayload? then Failed
      else
        var productId := CurrentProductId(ctx);
        var selected := Normalise(selections.selectedProducts);
        if |selected| == 0 then NoSelection
        else if Truthy(productId) && productId.value in selected then Selected
        else NotSelected
    else if IsOnRegularPage(ctx) then
      var pageId := CurrentPageId(ctx);
      if selections.NullPayload? then Failed
      else
        var selected := Normalise(selections.selectedPages);
        if |selected| == 0 then NoSelection
        else if Truthy(pageId) && SomeIncludes(selected, pageId.value) then Selected
        else NotSelected
    else NotApplicable
  }

  const SnippetUrl := "https://cdn.pagetest.ai/snippet/latest.js"

  /** `fetchAndInjectedLatestSnippet`: a script element is created, the
      line that would append it to the body is commented out, so the
      document is returned as it was. */
  function FetchAndInjectLatestSnippet(body: seq<DomElement>): (r: (DomElement, seq<DomElement>))
    ensures r.0.tag == "script" && r.0.attributes == [("src", SnippetUrl)]
    ensures r.1 == body
  {
    (DomElement("script", [("src", SnippetUrl)], ""), body)
  }

  datatype RunResult = RunResult(decision: Decision, created: Option<DomElement>, body: seq<DomElement>)

  /** One page load: fetch, check, and on a selected item create the script. */
  function Run(ctx: PageContext, outcome: FetchOutcome, body: seq<DomElement>): (r: RunResult)
    ensures r.decision == CheckCurrentPage(ctx, FetchSelectedItems(ctx, outcome))
    ensures r.created.Some? <==> r.decision == Selected
    ensures r.created.Some? ==> r.created.value.attributes == [("src", SnippetUrl)]
    ensures r.body == body
  {
    var d := CheckCurrentPage(ctx, FetchSelectedItems(ctx, outcome));
    if d == Selected then
      var (script, body') := FetchAndInjectLatestSnippet(body);
      RunResult(d, Some(script), body')
    else RunResult(d, None, body)
  }

  // ---- Properties ----

  /** Classification: a product page iff the path contains "/products/",
      checked first; otherwise a regular page iff it contains "/pages/". The
      lookup type follows the same test. */
  lemma PageKindByPath(ctx: PageContext, selections: Payload)
    ensures DataType(ctx) == "products" <==> exists i :: OccursAt(ctx.pathname, "/products/", i)
    ensures DataType(ctx) == "pages" <==> !exists i :: OccursAt(ctx.pathname, "/products/", i)
    ensures CheckCurrentPage(ctx, selections) == NotApplicable <==>
              !(exists i :: OccursAt(ctx.pathname, "/products/", i)) && !(exists i :: OccursAt(ctx.pathname, "/pages/", i))
  {
    IncludesIff(ctx.pathname, "/products/");
    IncludesIff(ctx.pathname, "/pages/");
  }

  /** A path holding both markers is a product page: the page list and the
      page id play no part in the decision. */
  lemma ProductTestedFirst(ctx: PageContext, pages1: FieldValue, pages2: FieldValue, products: FieldValue)
    requires IsProductPage(ctx) && IsOnRegularPage(ctx)
    ensures DataType(ctx) == "products"
    ensures CheckCurrentPage(ctx, ObjectPayload(pages1, products)) == CheckCurrentPage(ctx, ObjectPayload(pages2, products))
  {
  }

  /** On a failed fetch or a non-OK status the payload holds an empty list
      of only the requested kind, so nothing is ever activated. */
  lemma FailedFetchNeverActivates(ctx: PageContext, outcome: FetchOutcome)
    requires !(outcome.HttpResponse? && outcome.ok && outcome.body.Some?)
    ensures IsProductPage(ctx) ==> FetchSelectedItems(ctx, outcome) == ObjectPayload(Missing, ArrayValue([]))
    ensures !IsProductPage(ctx) ==> FetchSelectedItems(ctx, outcome) == ObjectPayload(ArrayValue([]), Missing)
    ensures CheckCurrentPage(ctx, FetchSelectedItems(ctx, outcome)) ==
              if IsProductPage(ctx) || IsOnRegularPage(ctx) then NoSelection else NotApplicable
  {
  }

  /** The product id comes from the metadata as a bare string when that id
      is truthy; otherwise from the product JSON element, namespaced; and is
      missing exactly when neither source yields one. */
  lemma ProductIdSources(ctx: PageContext)
    ensures Truthy(MetaProductId(ctx)) ==> CurrentProductId(ctx) == MetaProductId(ctx)
    ensures !Truthy(MetaProductId(ctx)) && ctx.productJson.ProductJsonParsed? ==>
              CurrentProductId(ctx) == Some(ProductGidPrefix + Interpolate(ctx.productJson.id))
    ensures CurrentProductId(ctx).None? <==> !Truthy(MetaProductId(ctx)) && !ctx.productJson.ProductJsonParsed?
  {
  }

  /** The page id is the metadata resource id exactly when the page type is
      "page" and that id is truthy, and missing otherwise. */
  lemma PageIdOnlyForPageType(ctx: PageContext)
    ensures CurrentPageId(ctx).Some? <==>
              ctx.meta.Some? && ctx.meta.value.page.Some? && ctx.meta.value.page.value.pageType == Some("page")
              && Truthy(ctx.meta.value.page.value.resourceId)
    ensures CurrentPageId(ctx).Some? ==> CurrentPageId(ctx) == ctx.meta.value.page.value.resourceId && CurrentPageId(ctx).value != ""
  {
  }

  /** An empty selected list for the current page kind never activates. */
  lemma EmptySelectionNeverInjects(ctx: PageContext, pages: FieldValue, products: FieldValue)
    requires IsProductPage(ctx) ==> Normalise(products) == []
    requires !IsProductPage(ctx) && IsOnRegularPage(ctx) ==> Normalise(pages) == []
    ensures CheckCurrentPage(ctx, ObjectPayload(pages, products)) != Selected
    ensures IsProductPage(ctx) || IsOnRegularPage(ctx) ==> CheckCurrentPage(ctx, ObjectPayload(pages, products)) == NoSelection
  {
  }

  /** On a product page: activation iff the product list is non-empty and it
      contains the (truthy) product id exactly. */
  lemma ProductDecision(ctx: PageContext, pages: FieldValue, products: FieldValue)
    requires IsProductPage(ctx)
    ensures var d := CheckCurrentPage(ctx, ObjectPayload(pages, products));
            && (d == Selected <==> Normalise(products) != [] && Truthy(CurrentProductId(ctx)) && CurrentProductId(ctx).value in Normalise(products))
            && (d == NoSelection <==> Normalise(products) == [])
            && d in {Selected, NotSelected, NoSelection}
  {
  }

  /** On a regular page: activation iff the page list is non-empty and some
      entry contains the (truthy) page id as a substring. */
  lemma PageDecision(ctx: PageContext, pages: FieldValue, products: FieldValue)
    requires !IsProductPage(ctx) && IsOnRegularPage(ctx)
    ensures var d := CheckCurrentPage(ctx, ObjectPayload(pages, products));
            var sel := Normalise(pages);
            && (d == Selected <==>
                  (sel != [] && Truthy(CurrentPageId(ctx)) &&
                   exists k, i :: 0 <= k < |sel| && OccursAt(sel[k], CurrentPageId(ctx).value, i)))
            && (d == NoSelection <==> sel == [])
  {
    var sel := Normalise(pages);
    var id := CurrentPageId(ctx);
    if id.Some? {
      forall k | 0 <= k < |sel| ensures Includes(sel[k], id.value) <==> exists i :: OccursAt(sel[k], id.value, i) {
        IncludesIff(sel[k], id.value);
      }
    }
  }

  /** A `null` payload ends every run that reads a selection list in the
      final `catch`. */
  lemma NullPayloadFails(ctx: PageContext)
    ensures CheckCurrentPage(ctx, NullPayload) == if IsProductPage(ctx) || IsOnRegularPage(ctx) then Failed else NotApplicable
  {
  }

  /** Substring matching activates a page whose id is only a prefix of a
      selected id. */
  lemma SubstringMatchActivatesOtherPage()
    ensures var ctx := PageContext("/pages/a", Some(Meta(None, Some(MetaPage(Some("page"), Some("gid://shopify/Page/12"))))), NoProductJson);
            CheckCurrentPage(ctx, ObjectPayload(ArrayValue(["gid://shopify/Page/123"]), Missing)) == Selected
  {
    var ctx := PageContext("/pages/a", Some(Meta(None, Some(MetaPage(Some("page"), Some("gid://shopify/Page/12"))))), NoProductJson);
    IncludesAt(ctx.pathname, "/pages/", 0);
    LongerNotIncluded(ctx.pathname, "/products/");
    var entries := ["gid://shopify/Page/123"];
    IncludesAt(entries[0], "gid://shopify/Page/12", 0);
  }

  /** A product id taken from the metadata is bare, so a list holding the
      namespaced form of the same product does not select it. */
  lemma BareMetaIdMissesNamespacedSelection()
    ensures var ctx := PageContext("/products/hat", Some(Meta(Some(MetaProduct(Some("42"))), None)), NoProductJson);
            CheckCurrentPage(ctx, ObjectPayload(Missing, ArrayValue([ProductGidPrefix + "42"]))) == NotSelected
  {
    var ctx := PageContext("/products/hat", Some(Meta(Some(MetaProduct(Some("42"))), None)), NoProductJson);
    IncludesAt(ctx.pathname, "/products/", 0);
    assert CurrentProductId(ctx) == Some("42");
    assert "42" != ProductGidPrefix + "42" by { assert |"42"| != |ProductGidPrefix + "42"|; }
  }
}
