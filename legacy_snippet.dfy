/** The earlier storefront snippet: one request for both lists, namespaced
    product ids, page ids made from the URL handle, no fall-through from a
    product page to the page check, and a visible indicator appended to the
    document body on activation. */
module LegacySnippet {
  import opened Common
  import opened JsString
  import opened Storefront

  /** The product id, always namespaced: from the metadata id when truthy,
      else from the product JSON element. */
  function ProductId(ctx: PageContext): Option<string>
  {
    if Truthy(MetaProductId(ctx)) then Some(ProductGidPrefix + MetaProductId(ctx).value)
    else ProductJsonId(ctx.productJson)
  }

  const PagesPrefix := "/pages/"
  const HandlePrefix := "page-handle-"

  /** `pathname.replace(/^\/pages\//, '')`: one leading "/pages/" removed. */
  function PageHandle(pathname: string): string
  {
    if StartsWith(pathname, PagesPrefix) then pathname[|PagesPrefix|..] else pathname
  }

  /** The page id: "page-handle-" followed by the handle, when the handle is
      non-empty. */
  function PageId(pathname: string): Option<string>
  {
    var handle := PageHandle(pathname);
    if handle != "" then Some(HandlePrefix + handle) else None
  }

  /** The payload `checkCurrentPage` receives: the parsed response when the
      request succeeded, otherwise both lists empty. */
  function FetchSelectedItems(outcome: FetchOutcome): Payload
  {
    match outcome
    case HttpResponse(true, Some(body)) => body
    case _ => ObjectPayload(ArrayValue([]), ArrayValue([]))
  }

  /** `checkCurrentPage`: nothing when both lists are empty; on a product
      page only exact membership of the product id, and no fall-through;
      on any other page a selected entry containing the page id. */
  function Decide(ctx: PageContext, selections: Payload): Decision
  {
    if selections.NullPayload? then Failed
    else
      var pages := Normalise(selections.selectedPages);
      var products := Normalise(selections.selectedProducts);
      if |pages| == 0 && |products| == 0 then NoSelection
      else if IsProductPage(ctx) then
        var productId := ProductId(ctx);
        if Truthy(productId) && productId.value in products then Selected else NotSelected
      else
        var pageId := PageId(ctx.pathname);
        if Truthy(pageId) && (exists k | 0 <= k < |pages| :: Includes(pages[k], pageId.value)) then Selected
        else NotSelected
  }

  const IndicatorText := "PageTest.ai Active"

  /** The indicator both initialisers append. */
  const Indicator := DomElement("div",
    [("position", "fixed"), ("top", "10px"), ("right", "10px"),
     ("background", "rgba(0, 128, 0, 0.7)"), ("color", "white"),
     ("padding", "5px 10px"), ("borderRadius", "3px"), ("zIndex", "9999")],
    IndicatorText)

  /** `document.body`, as the sequence of its children. */
  class DocumentBody {
    var children: seq<DomElement>

    constructor (children: seq<DomElement>)
      ensures this.children == children
    {
      this.children := children;
    }

    /** `initializeProductTesting` / `initializePageTesting` (identical):
        build the indicator one style property at a time and append it. */
    method InitializeTesting()
      modifies this
      ensures children == old(children) + [Indicator]
    {
      var style: seq<(string, string)> := [];
      style := style + [("position", "fixed")];
      style := style + [("top", "10px")];
      style := style + [("right", "10px")];
      style := style + [("background", "rgba(0, 128, 0, 0.7)")];
      style := style + [("color", "white")];
      style := style + [("padding", "5px 10px")];
      style := style + [("borderRadius", "3px")];
      style := style + [("zIndex", "9999")];
      var indicator := DomElement("div", style, IndicatorText);
      assert indicator == Indicator;
      children := children + [indicator];
    }
  }

  /** `checkCurrentPage` run against the document: an activation appends
      exactly one indicator, anything else leaves the body as it was. */
  method CheckCurrentPage(ctx: PageContext, selections: Payload, body: DocumentBody) returns (d: Decision)
    modifies body
    ensures d == Decide(ctx, selections)
    ensures body.children == old(body.children) + (if d == Selected then [Indicator] else [])
  {
    d := Decide(ctx, selections);
    if d == Selected {
      body.InitializeTesting();
    }
  }

  /** The `DOMContentLoaded` handler: fetch, then check. */
  method Run(ctx: PageContext, outcome: FetchOutcome, body: DocumentBody) returns (d: Decision)
    modifies body
    ensures d == Decide(ctx, FetchSelectedItems(outcome))
    ensures body.children == old(body.children) + (if d == Selected then [Indicator] else [])
  {
    var selections := FetchSelectedItems(outcome);
    d := CheckCurrentPage(ctx, selections, body);
  }

  // ---- Properties ----

  /** The product id is always namespaced, from the metadata id or else from
      the product JSON element, and missing exactly when both are. */
  lemma ProductIdAlwaysNamespaced(ctx: PageContext)
    ensures Truthy(MetaProductId(ctx)) ==> ProductId(ctx) == Some(ProductGidPrefix + MetaProductId(ctx).value)
    ensures !Truthy(MetaProductId(ctx)) && ctx.productJson.ProductJsonParsed? ==>
              ProductId(ctx) == Some(ProductGidPrefix + Interpolate(ctx.productJson.id))
    ensures ProductId(ctx).Some? ==> StartsWith(ProductId(ctx).value, ProductGidPrefix)
    ensures ProductId(ctx).None? <==> !Truthy(MetaProductId(ctx)) && !ctx.productJson.ProductJsonParsed?
  {
    var r := ProductId(ctx);
    if r.Some? {
      assert r.value[..|ProductGidPrefix|] == ProductGidPrefix;
    }
  }

  /** The page id is missing exactly for "" and "/pages/"; otherwise it is
      "page-handle-" followed by the path with one anchored "/pages/" removed. */
  lemma PageIdSpec(pathname: string)
    ensures PageId(pathname).None? <==> pathname == "" || pathname == PagesPrefix
    ensures PageId(pathname).Some? ==>
              PageId(pathname).value == HandlePrefix + (if StartsWith(pathname, PagesPrefix) then pathname[7..] else pathname)
  {
    if StartsWith(pathname, PagesPrefix) && pathname[7..] == "" {
      assert pathname == pathname[..7];
    }
  }

  /** The edge cases of the handle rule. */
  lemma PageIdExamples()
    ensures PageId("/pages/") == None
    ensures PageId("/") == Some("page-handle-/")
    ensures PageId("/pages/about") == Some("page-handle-about")
    ensures PageId("/pages/pages/x") == Some("page-handle-pages/x")
  {
    assert !StartsWith("/", PagesPrefix);
    assert HandlePrefix + "/" == "page-handle-/";
    assert StartsWith("/pages/about", PagesPrefix);
    assert "/pages/about"[7..] == "about";
    assert HandlePrefix + "about" == "page-handle-about";
    assert StartsWith("/pages/pages/x", PagesPrefix);
    assert "/pages/pages/x"[7..] == "pages/x";
    assert HandlePrefix + "pages/x" == "page-handle-pages/x";
  }

  /** Any failed request leaves both lists empty, and then nothing is
      activated on any page. */
  lemma FailedFetchNeverActivates(ctx: PageContext, outcome: FetchOutcome)
    requires !(outcome.HttpResponse? && outcome.ok && outcome.body.Some?)
    ensures FetchSelectedItems(outcome) == ObjectPayload(ArrayValue([]), ArrayValue([]))
    ensures Decide(ctx, FetchSelectedItems(outcome)) == NoSelection
  {
  }

  /** Both lists empty: nothing on any page; one non-empty list is enough to
      reach the page-kind checks. */
  lemma BothEmptyNoSelection(ctx: PageContext, pages: FieldValue, products: FieldValue)
    ensures Decide(ctx, ObjectPayload(pages, products)) == NoSelection <==> Normalise(pages) == [] && Normalise(products) == []
  {
  }

  /** On a product page only the product list counts, by exact membership;
      a product that is not selected ends the check even when the page list
      would match. */
  lemma ProductPageNoFallThrough(ctx: PageContext, pages: FieldValue, products: FieldValue)
    requires IsProductPage(ctx)
    requires Normalise(pages) != [] || Normalise(products) != []
    ensures Decide(ctx, ObjectPayload(pages, products)) == Selected <==>
              Truthy(ProductId(ctx)) && ProductId(ctx).value in Normalise(products)
    ensures Decide(ctx, ObjectPayload(pages, products)) in {Selected, NotSelected}
  {
  }

  /** On any other page: activation iff some selected page entry contains the
      page id as a substring. */
  lemma OtherPageSubstringMatch(ctx: PageContext, pages: FieldValue, products: FieldValue)
    requires !IsProductPage(ctx)
    requires Normalise(pages) != [] || Normalise(products) != []
    ensures var sel := Normalise(pages);
            var id := PageId(ctx.pathname);
            Decide(ctx, ObjectPayload(pages, products)) == Selected <==>
              (id.Some? && exists k, i :: 0 <= k < |sel| && OccursAt(sel[k], id.value, i))
  {
    var sel := Normalise(pages);
    var id := PageId(ctx.pathname);
    if id.Some? {
      forall k | 0 <= k < |sel| ensures Includes(sel[k], id.value) <==> exists i :: OccursAt(sel[k], id.value, i) {
        IncludesIff(sel[k], id.value);
      }
    }
  }
}
