/** Properties that span several parts of the app: what the storefront
    client decides for a freshly installed shop, and which uninstall route
    removes which installed tag. */
module Lifecycle {
  import opened Common
  import opened JsString
  import opened Store
  import opened Storefront
  import StorefrontClient
  import ShopDataApi
  import ShopifyServer
  import Webhooks
  import WebhooksUninstalled
  import WebhooksInstalled

  /** The lookup response as the current client's `fetch` sees it: `ok` for
      a 2xx status, and the JSON body with the fields it carries. */
  function Fetched(r: ShopDataApi.Response): FetchOutcome
  {
    var payload := match r.body
      case PagesBody(_, pages) => ObjectPayload(pages, Missing)
      case ProductsBody(_, products) => ObjectPayload(Missing, products)
      case _ => ObjectPayload(Missing, Missing);
    HttpResponse(200 <= r.status < 300, Some(payload))
  }

  /** The request the current client sends for a page. */
  function ClientRequest(ctx: PageContext, domain: string): ShopDataApi.Request
  {
    ShopDataApi.Request("GET", Some(domain), Some(StorefrontClient.DataType(ctx)))
  }

  /** The current client's decision for a page of a shop, against the store. */
  function Decision(ctx: PageContext, domain: string, st: StoreState): Decision
  {
    var outcome := Fetched(ShopDataApi.Loader(ClientRequest(ctx, domain), st.shops));
    StorefrontClient.CheckCurrentPage(ctx, StorefrontClient.FetchSelectedItems(ctx, outcome))
  }

  /** Right after authentication of a new shop, no page of the shop is under
      test. */
  lemma FreshInstallSelectsNothing(st: StoreState, domain: string, admin: AdminApi, ctx: PageContext)
    requires domain != "" && domain !in st.shops
    ensures var r := ShopifyServer.AfterAuth(st, domain, admin, DbAvailable);
            Decision(ctx, domain, r) != Selected
  {
  }

  /** For a stored shop, a product page is under test exactly when the
      stored product list is non-empty and contains the page's product id. */
  lemma StoredProductsDecide(ctx: PageContext, domain: string, st: StoreState)
    requires domain != "" && domain in st.shops && IsProductPage(ctx)
    ensures var stored := Normalise(ShopDataApi.OrEmpty(st.shops[domain].selections.selectedProducts));
            Decision(ctx, domain, st) == Selected <==>
              stored != [] && Truthy(StorefrontClient.CurrentProductId(ctx)) && StorefrontClient.CurrentProductId(ctx).value in stored
  {
  }

  /** A product list stored as a non-empty string reaches the client as it
      is and is split on commas there; an empty string is served as the
      empty array. */
  lemma StoredStringIsSplit(ctx: PageContext, domain: string, st: StoreState)
    requires domain != "" && domain in st.shops && IsProductPage(ctx)
    requires st.shops[domain].selections.selectedProducts.StringValue?
    ensures var text := st.shops[domain].selections.selectedProducts.text;
            && (text != "" ==> Normalise(ShopDataApi.OrEmpty(st.shops[domain].selections.selectedProducts)) == Split(text, ','))
            && (text == "" ==> Decision(ctx, domain, st) == NoSelection)
  {
  }

  /** For an unknown shop the 404 makes the client fall back to an empty list:
      nothing is under test. */
  lemma UnknownShopSelectsNothing(ctx: PageContext, domain: string, st: StoreState)
    requires domain != "" && domain !in st.shops
    ensures Decision(ctx, domain, st) in {NoSelection, NotApplicable}
  {
  }

  /** The tag added after authentication matches the generic uninstall
      route's pattern. */
  lemma AfterAuthTagMatchesGenericRoute()
    ensures Includes(ShopifyServer.AfterAuthScriptUrl, Webhooks.CustomScriptPattern)
  {
    var pre := "{process.env.SHOPIFY_APP_URL}/";
    IncludesBetween(pre, Webhooks.CustomScriptPattern, "");
    assert pre + Webhooks.CustomScriptPattern + "" == ShopifyServer.AfterAuthScriptUrl;
  }

  /** The tag added by the install webhook matches the dedicated uninstall
      route's pattern. */
  lemma InstalledTagMatchesDedicatedRoute()
    ensures Includes(WebhooksInstalled.InstalledScriptUrl, WebhooksUninstalled.StaticSavePattern)
  {
    IncludesBetween("https://static.", WebhooksUninstalled.StaticSavePattern, "custom-snippet-j.js");
  }

  /** Authenticating, then the generic uninstall webhook with a working
      client, leaves no tag with the after-authentication URL among those
      the listing covers, and keeps the shop record. */
  lemma AuthThenUninstall(st: StoreState, domain: string, admin: AdminApi)
    requires Valid(st) && admin.listSucceeds && admin.deleteThrowsAt.None?
    ensures var authed := ShopifyServer.AfterAuth(st, domain, admin, DbAvailable);
            var r := Webhooks.UninstallAction(authed, "APP_UNINSTALLED", domain, Some(admin), DbAvailable).0;
            && (forall k :: 0 <= k < |r.scriptTags| && r.scriptTags[k] in Listed(authed.scriptTags) ==>
                  r.scriptTags[k].src != ShopifyServer.AfterAuthScriptUrl)
            && domain in r.shops
  {
    var registered := st.(webhookShops := st.webhookShops + {domain});
    var mid := ShopifyServer.InitShopRecord(registered, domain, DbAvailable);
    ShopifyServer.InjectResult(mid, ShopifyServer.AfterAuthScriptUrl, admin);
    var authed := ShopifyServer.AfterAuth(st, domain, admin, DbAvailable);
    Webhooks.ExactlyMatchingRemoved(authed, Webhooks.CustomScriptPattern, admin);
    AfterAuthTagMatchesGenericRoute();
    var afterTags := Webhooks.RemovedTags(authed, Webhooks.CustomScriptPattern, admin).0;
    var r := Webhooks.UninstallAction(authed, "APP_UNINSTALLED", domain, Some(admin), DbAvailable).0;
    assert r.scriptTags == afterTags.scriptTags;
    Webhooks.ListedMatchingGone(authed, Webhooks.CustomScriptPattern, admin, ShopifyServer.AfterAuthScriptUrl);
  }
}
