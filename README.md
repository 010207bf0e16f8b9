# PageTest.ai Shopify app: a Dafny model

This project models the core of the PageTest.ai Shopify app. A merchant
installs the app and picks the store pages and products to put under test.
The app stores those selections per shop and adds a script tag to the
storefront. On each page load that script asks the app whether the current
product or page is selected, and activates testing only if it is. The model
covers these parts:

- **Storefront decision clients.** `StorefrontClient` models the current
  `custom-script.js`. `LegacySnippet` models the earlier `custom-snippet.js`,
  including the indicator it appends to the document body. Both share the
  page-context and payload shapes in `Storefront`.
- **Selection lookup endpoints.** `ShopDataApi` models the lookup with CORS
  headers and a `type` parameter. `LegacyShopDataApi` models the older
  pass-through endpoint.
- **Script-serving route.** `ScriptServing` replaces the app-URL placeholder
  in the script file.
- **Install and uninstall lifecycle.**
  - `ShopifyServer`: the `afterAuth` hook, the shop-record initialisation and
    the idempotent script-tag injection.
  - `TestAuth`: the simulated install action.
  - `Webhooks`: the generic uninstall webhook, and the tag-removal loop
    shared by both uninstall routes.
  - `WebhooksUninstalled` and `WebhooksInstalled`: the dedicated uninstall
    and install routes.
- **Merchant dashboard.** `CatalogLoader` models the paginated catalog fetch
  with its 5000-item cap. `Dashboard` models the selection state with its
  handlers.
- **Cross-cutting properties.** `Lifecycle` states properties that span
  several of the parts above.

The server-side state lives in `Store` as a class `AppStore`, with a value
view `StoreState`. It holds:

- the shop table, which maps a domain to its selections record;
- the session table;
- the shop's script tags on the platform, with their ids taken from a
  counter;
- the shops for which the uninstall webhook is registered.

The primitive store operations (create a record, create or delete a tag,
delete sessions, register the webhook) are methods of that class. Each route
handler is a module-level method that takes the `AppStore` and calls them.
Every such method's `ensures` ties the new state to a function of the old
state, and the lemmas state what those functions guarantee. Failures of external calls are inputs:

- `DbBehaviour` covers a database call that answers or throws.
- `AdminApi` covers whether the tag listing succeeds, how a create ends, and
  at which delete, if any, an exception is thrown.
- A `FetchOutcome` covers the storefront's request.
- `FileRead` covers reading the script file.

JavaScript behaviour the code depends on is modelled explicitly in `Common`
and `JsString`:

- the truthiness of a missing or empty string;
- `${x}` rendering a missing value as `undefined`;
- `includes` as substring search;
- `"".split(",")` giving `[""]`;
- `String.prototype.replace` with a string pattern, which replaces only the
  first occurrence and interprets `$` patterns in the replacement.

In three places the code does something other than what its names and
its product-side logic suggest. The model follows the code:

- **Page matching.** Exact identifier membership is the evident intent,
  as for products. Both clients match pages by substring (`p.includes(pageId)`).
  `StorefrontClient.SubstringMatchActivatesOtherPage` shows a page activated
  by another page's id.
- **Unknown domains.** A domain without a record does not read as an empty
  selection. Both lookup endpoints answer 404. The current client
  then falls back to an empty list of the requested kind, so nothing is
  selected (`Lifecycle.UnknownShopSelectsNothing`).
- **Appending the testing script.** The name `fetchAndInjectedLatestSnippet`
  says the script is injected when a selected item is found. In the current client the
  `appendChild` line is commented out, so the element is created and the
  document is left unchanged (`StorefrontClient.Run`).

## Model

| member | source | states |
|---|---|---|
| Storefront.IsProductPage | app/helpers/custom-script.js:9-11 | No contract of its own; `pathname.includes("/products/")`. `StorefrontClient.PageKindByPath` states it as an occurrence of `/products/` in the path. |
| Storefront.ProductJsonId | app/helpers/custom-script.js:20-31 | The JSON-element fallback yields an id exactly when the element's text parses to a value other than `null`. That id is `gid://shopify/Product/` followed by the value's `id`; a primitive, or an object without an `id`, gives `undefined`. A parse error or `null` yields nothing. |
| Storefront.Normalise | app/helpers/custom-script.js:89-93 | No contract of its own; the array, string and fallback cases are stated by `Storefront.NormaliseCases`. |
| Storefront.NormaliseCases | app/helpers/custom-script.js:89-93 | An array is used as it is and any other value gives the empty list. A string is split on commas, gives at least one piece, no piece holds a comma, and joining the pieces back gives the string. The list is empty exactly for a missing value, a non-list value or an empty array. |
| JsString.IndexOf | app/helpers/custom-script.js:10 | The index found is an occurrence with no earlier occurrence. No index means no occurrence. |
| JsString.Includes | app/helpers/custom-script.js:10 | No contract of its own; `includes` is "`indexOf` finds an index". `JsString.IncludesIff` states it as an occurrence. |
| JsString.IncludesIff | app/helpers/custom-script.js:10 | `includes` holds exactly when the pattern occurs at some index. |
| JsString.Split | app/helpers/custom-script.js:92 | `split(",")` always returns at least one piece, and no piece contains the separator. |
| JsString.JoinSplit | app/helpers/custom-script.js:92 | Splitting on a separator and joining again gives back the original string. |
| JsString.ReplaceFirst | app/routes/pagetest.custom-script.jsx:14-17 | No contract of its own; its cases are stated by `JsString.ReplaceFirstOccurrence`, `JsString.ReplaceAbsent`, `ScriptServing.PlaceholderSubstituted`, `ScriptServing.DoubleDollarInAppUrl` and `ScriptServing.MatchPatternInAppUrl`. |
| JsString.ReplaceFirstOccurrence | app/routes/pagetest.custom-script.jsx:14-17 | For a replacement without `$`, `replace` with a string pattern replaces exactly the first occurrence and keeps the text before and after it. |
| JsString.ReplaceAbsent | app/routes/pagetest.custom-script.jsx:14-17 | A string without the pattern is returned unchanged. |
| StorefrontClient.IsOnRegularPage | app/helpers/custom-script.js:138-140 | No contract of its own; `pathname.includes("/pages/")`. `StorefrontClient.PageKindByPath` states its role in the classification. |
| StorefrontClient.DataType | app/helpers/custom-script.js:50-51 | No contract of its own; `StorefrontClient.PageKindByPath` states that the type is `products` exactly on a product path and `pages` otherwise. |
| StorefrontClient.CurrentProductId | app/helpers/custom-script.js:14-32 | No contract of its own; `StorefrontClient.ProductIdSources` states both sources and when the id is missing. |
| StorefrontClient.CurrentPageId | app/helpers/custom-script.js:35-46 | No contract of its own; `StorefrontClient.PageIdOnlyForPageType` states when the id exists. |
| StorefrontClient.FetchSelectedItems | app/helpers/custom-script.js:48-76 | No contract of its own; `StorefrontClient.FailedFetchNeverActivates` states the fallback payload of each failure. |
| StorefrontClient.CheckCurrentPage | app/helpers/custom-script.js:79-136 | No contract of its own; its branches are stated by `StorefrontClient.PageKindByPath`, `ProductTestedFirst`, `EmptySelectionNeverInjects`, `ProductDecision`, `PageDecision` and `NullPayloadFails`. |
| StorefrontClient.PageKindByPath | app/helpers/custom-script.js:9-11 | The lookup type is `products` exactly when the path contains `/products/`. The check does nothing exactly when the path contains neither `/products/` nor `/pages/`. |
| StorefrontClient.ProductTestedFirst | app/helpers/custom-script.js:79-83 | A path holding both markers is treated as a product page. The page list plays no part in the decision. |
| StorefrontClient.FailedFetchNeverActivates | app/helpers/custom-script.js:48-76 | A network failure, a non-OK status or an unreadable body gives an empty list of only the requested kind. Nothing is then activated on any page. |
| StorefrontClient.ProductIdSources | app/helpers/custom-script.js:14-32 | The product id is the bare metadata id when that id is truthy. Otherwise it is the namespaced id from the product JSON element. It is missing exactly when neither source gives one. |
| StorefrontClient.PageIdOnlyForPageType | app/helpers/custom-script.js:35-46 | The page id is the metadata resource id exactly when the page type is `page` and that id is truthy. Otherwise it is missing. |
| StorefrontClient.EmptySelectionNeverInjects | app/helpers/custom-script.js:79-136 | An empty list for the current page kind never activates. On a product or regular page the result is "no selection". |
| StorefrontClient.ProductDecision | app/helpers/custom-script.js:83-108 | On a product page, testing activates exactly when the product list is non-empty and contains the truthy product id as an exact element. An empty list means "no selection". |
| StorefrontClient.PageDecision | app/helpers/custom-script.js:109-135 | On a regular page, testing activates exactly when the page list is non-empty and some entry contains the truthy page id as a substring. An empty list means "no selection". |
| StorefrontClient.NullPayloadFails | app/helpers/custom-script.js:83-135 | A `null` payload ends every product or page check in the error handler. |
| StorefrontClient.SubstringMatchActivatesOtherPage | app/helpers/custom-script.js:126-128 | The page `gid://shopify/Page/12` activates when only `gid://shopify/Page/123` is selected. |
| StorefrontClient.BareMetaIdMissesNamespacedSelection | app/helpers/custom-script.js:14-18 | A bare metadata id `42` is not selected by a list holding `gid://shopify/Product/42`. |
| StorefrontClient.FetchAndInjectLatestSnippet | app/helpers/custom-script.js:143-150 | A script element with the CDN `src` is created, and the document body is returned unchanged. |
| StorefrontClient.Run | app/helpers/custom-script.js:153-159 | A run creates a script element exactly when the decision is "selected". The element's `src` is the CDN URL, and the body never changes. |
| LegacySnippet.ProductId | app/routes/public/custom-snippet.js:14-32 | No contract of its own; `LegacySnippet.ProductIdAlwaysNamespaced` states both sources. |
| LegacySnippet.PageHandle | app/routes/public/custom-snippet.js:38 | No contract of its own; `LegacySnippet.PageIdSpec` and `LegacySnippet.PageIdExamples` state the anchored strip. |
| LegacySnippet.PageId | app/routes/public/custom-snippet.js:35-43 | No contract of its own; `LegacySnippet.PageIdSpec` states when it is missing and what it is otherwise. |
| LegacySnippet.FetchSelectedItems | app/routes/public/custom-snippet.js:46-58 | No contract of its own; `LegacySnippet.FailedFetchNeverActivates` states the fallback payload. |
| LegacySnippet.Decide | app/routes/public/custom-snippet.js:61-106 | No contract of its own; its branches are stated by `LegacySnippet.BothEmptyNoSelection`, `ProductPageNoFallThrough` and `OtherPageSubstringMatch`. |
| LegacySnippet.ProductIdAlwaysNamespaced | app/routes/public/custom-snippet.js:14-32 | The legacy product id is always namespaced, whether it comes from the metadata id or from the product JSON element. It is missing exactly when both sources are missing. |
| LegacySnippet.PageIdSpec | app/routes/public/custom-snippet.js:35-43 | The page id is missing exactly for the paths `""` and `/pages/`. Otherwise it is `page-handle-` followed by the path with one leading `/pages/` removed. |
| LegacySnippet.PageIdExamples | app/routes/public/custom-snippet.js:35-43 | The edge cases: `/pages/` has no id, `/` gives `page-handle-/`, and only one anchored `/pages/` is stripped. |
| LegacySnippet.FailedFetchNeverActivates | app/routes/public/custom-snippet.js:46-58 | Any failed request gives both lists empty, and nothing activates on any page. |
| LegacySnippet.BothEmptyNoSelection | app/routes/public/custom-snippet.js:75-78 | The result is "no selection" exactly when both normalised lists are empty. |
| LegacySnippet.ProductPageNoFallThrough | app/routes/public/custom-snippet.js:81-93 | On a product page, activation happens exactly on exact membership of the namespaced id in the product list. Otherwise the check ends, and the page list is never consulted. |
| LegacySnippet.OtherPageSubstringMatch | app/routes/public/custom-snippet.js:96-105 | On any other page, activation happens exactly when some page entry contains the handle-based page id as a substring. |
| LegacySnippet.DocumentBody.InitializeTesting | app/routes/public/custom-snippet.js:109-125 | The body gains exactly one child: the fixed green "PageTest.ai Active" indicator. |
| LegacySnippet.CheckCurrentPage | app/routes/public/custom-snippet.js:61-106 | The decision is the legacy rule. The body gains one indicator on activation and is otherwise unchanged. |
| LegacySnippet.Run | app/routes/public/custom-snippet.js:147-158 | A fetch followed by the check. An indicator is appended exactly on activation. |
| Store.Listed | app/shopify.server.js:89-106 | A listing returns every tag, in order, when there are at most 250. Above 250 it returns exactly the first 250. |
| Store.WithoutIds | app/routes/webhooks.jsx:82-95 | The kept tags are never more than the input. A tag is kept exactly when it is in the input and its id was not deleted. Order and multiplicity are stated by `Store.WithoutIdsAppend` and `Store.WithoutIdsMultiplicity`. |
| Store.WithoutIdsMultiplicity | app/routes/webhooks.jsx:82-95 | Deleting ids keeps each tag whose id was not deleted as often as it occurred, and drops every copy of a deleted one. |
| Store.WithoutIdsAppend | app/routes/webhooks.jsx:82-95 | Deletion acts piece by piece on consecutive parts of the list, so the kept tags stay in their order. |
| Store.WithoutIdsTwice | app/routes/webhooks.jsx:82-95 | Deleting ids one after another is the same as deleting them all at once. |
| Store.WithoutIdsValid | app/routes/webhooks.jsx:82-95 | Deletions keep tag ids distinct and below the next id. |
| Store.WithoutShopSessions | app/routes/webhooks.jsx:25 | A session is kept exactly when it is in the input and belongs to another shop. Order and multiplicity are stated by `Store.WithoutShopSessionsAppend` and `Store.WithoutShopSessionsMultiplicity`. |
| Store.WithoutShopSessionsMultiplicity | app/routes/webhooks.jsx:25 | Deleting a shop's sessions keeps each session of another shop as often as it occurred, and drops all of that shop's. |
| Store.WithoutShopSessionsAppend | app/routes/webhooks.jsx:25 | Session deletion acts piece by piece, so the kept sessions stay in their order. |
| Store.AppendTag | app/shopify.server.js:126-151 | A created tag keeps the platform's ids distinct and below the next id. |
| Store.AddShop | app/shopify.server.js:68-76 | No contract of its own; `Store.AppStore.CreateShop` and `ShopifyServer.InitCreatesOnlyIfAbsent` state the record it adds. |
| Store.AppStore.CreateShop | app/shopify.server.js:68-76 | The shop table gains a record with empty selections for the domain. Nothing else changes. |
| Store.AppStore.CreateScriptTag | app/shopify.server.js:126-151 | A tag with the online-store scope and caching off is appended only when the response reports no user errors. |
| Store.AppStore.DeleteScriptTag | app/routes/webhooks.jsx:83-93 | Only the tag with that id is removed. |
| Store.AppStore.DeleteSessions | app/routes/webhooks.jsx:25 | Only the shop's sessions are removed. |
| Store.AppStore.RegisterWebhooks | app/shopify.server.js:34 | The shop joins the set of shops with a registered uninstall webhook, and nothing else changes. |
| ShopifyServer.InitShopRecord | app/shopify.server.js:58-82 | No contract of its own; `ShopifyServer.InitCreatesOnlyIfAbsent` and `ShopifyServer.InitIdempotent` state what it does. |
| ShopifyServer.InitShopRecordAfterAuth | app/shopify.server.js:58-82 | The new state is the initialisation function of the old one. |
| ShopifyServer.InitCreatesOnlyIfAbsent | app/shopify.server.js:58-82 | A record with empty lists is created only when the domain has none and the database answers. Every other record, the sessions and the tags are kept. A failing call leaves the store as it was. |
| ShopifyServer.InitIdempotent | app/shopify.server.js:58-82 | After one successful initialisation, any further call changes nothing. |
| ShopifyServer.InjectTag | app/shopify.server.js:84-174 | No contract of its own; `ShopifyServer.InjectFindsExisting`, `InjectCreatesOne`, `InjectResult` and `InjectIdempotentIff` state its cases. |
| ShopifyServer.InjectScriptTag | app/shopify.server.js:84-174 | The method's new state and flag are those of the injection function. |
| ShopifyServer.InjectFindsExisting | app/shopify.server.js:112-119 | If a tag with exactly this `src` is among the first 250, nothing is created and the result is `true`. |
| ShopifyServer.InjectCreatesOne | app/shopify.server.js:121-169 | Otherwise exactly one tag is appended, with this `src`, scope `ONLINE_STORE` and caching off. The result is `true`. |
| ShopifyServer.InjectResult | app/shopify.server.js:84-174 | The flag is `false` exactly when the listing throws, or when no tag is found and the create throws or reports user errors. The tags change by at most one appended tag, and the id invariant is kept. |
| ShopifyServer.InjectIdempotentIff | app/shopify.server.js:89-119 | A second injection after a create adds nothing more exactly when the new tag falls within the first 250 listed. |
| ShopifyServer.AfterAuth | app/shopify.server.js:33-42 | No contract of its own; `ShopifyServer.AfterAuthOutcome` and the `Lifecycle` lemmas state its outcome. |
| ShopifyServer.AfterAuthHook | app/shopify.server.js:33-42 | The hook's new state is the `afterAuth` function of the old state: webhooks, then the record, then the tag. |
| ShopifyServer.AfterAuthOutcome | app/shopify.server.js:33-42 | With a working database and platform, the shop has a record and a registered webhook, and a tag with the script URL exists. |
| TestAuth.Action | app/routes/app.test-auth.jsx:7-48 | No contract of its own; `TestAuth.CreatePath`, `ExistingShopUnchanged`, `ErrorReply` and `InjectionOnlyWhenCreated` state its cases. |
| TestAuth.TestAuthAction | app/routes/app.test-auth.jsx:7-48 | The method's new state and reply are those of the action function. |
| TestAuth.CreatePath | app/routes/app.test-auth.jsx:18-40 | With no record, one with empty selections is created and the injection runs on the new state. The reply is a success whose message ends with the injection's flag. |
| TestAuth.ExistingShopUnchanged | app/routes/app.test-auth.jsx:43 | An existing record gives "Shop already exists" and leaves the store unchanged. |
| TestAuth.ErrorReply | app/routes/app.test-auth.jsx:44-47 | A failing database call gives its message as the error and changes nothing. |
| TestAuth.InjectionOnlyWhenCreated | app/routes/app.test-auth.jsx:23-43 | Tags change only on the create path, and then only by one tag with the variant URL. The reply reports success exactly on that path. |
| TestAuth.VariantUrl | app/routes/app.test-auth.jsx:76 | The variant URL is `undefined/public/custom-script` when the variable is unset, and the app URL followed by `/public/custom-script` otherwise. |
| Webhooks.MatchingTags | app/routes/webhooks.jsx:75-77 | The matching tags are never more than the input. A tag is kept exactly when it is in the input and its `src` contains the pattern. Order and multiplicity are stated by `Webhooks.MatchingTagsAppend` and `Webhooks.MatchingTagsMultiplicity`. |
| Webhooks.MatchingTagsMultiplicity | app/routes/webhooks.jsx:75-77 | The filter keeps each tag whose `src` contains the pattern as often as it occurs, and no other tag. |
| Webhooks.MatchingTagsAppend | app/routes/webhooks.jsx:75-77 | The filter acts piece by piece, so the matching tags keep their listing order. |
| Webhooks.MatchingTagsDistinct | app/routes/webhooks.jsx:75-77 | Filtering tags with distinct ids gives tags with distinct ids. |
| Webhooks.TagIdsAppend | app/routes/webhooks.jsx:82-95 | The ids deleted over consecutive parts of the loop are the union of each part's ids. |
| Webhooks.RemovedTags | app/routes/webhooks.jsx:53-101 | No contract of its own; `Webhooks.ExactlyMatchingRemoved`, `ListedMatchingGone`, `BeyondListingSurvives` and `PartialRemoval` state its cases. |
| Webhooks.RemoveMatchingTags | app/routes/webhooks.jsx:46-102 | The loop deletes matching tags in order, and its new state and flag are the removal function's. A delete that throws stops the loop after the earlier deletes. |
| Webhooks.ExactlyMatchingRemoved | app/routes/webhooks.jsx:53-97 | If every delete succeeds, a tag is removed exactly when it is among the first 250 and its `src` contains the pattern. The result is `true`, only the tags change, and ids stay valid. |
| Webhooks.ListedMatchingGone | app/routes/webhooks.jsx:53-97 | If every delete succeeds, no tag left among the listed ones has a `src` that contains the pattern. |
| Webhooks.BeyondListingSurvives | app/routes/webhooks.jsx:53-69 | Tags beyond the first 250 are never removed, whatever fails. |
| Webhooks.PartialRemoval | app/routes/webhooks.jsx:82-101 | A delete throwing at position `k` leaves exactly the first `k` matching tags removed, and the result is `false`. The tag whose delete threw is still present. |
| Webhooks.RemoveScriptTagsResult | app/routes/webhooks.jsx:46-102 | No contract of its own; `Webhooks.RemoveOutcomes` states its outcomes. |
| Webhooks.RemoveScriptTags | app/routes/webhooks.jsx:46-102 | The method's new state and outcome are those of the removal function. |
| Webhooks.RemoveOutcomes | app/routes/webhooks.jsx:46-102 | The removal throws exactly when there is no client. It returns `false` exactly when the listing or a delete throws. |
| Webhooks.UninstallAction | app/routes/webhooks.jsx:4-43 | No contract of its own; `Webhooks.AlwaysAcknowledged`, `OtherTopicNoChange` and `UninstallCleansSessions` state what it does. |
| Webhooks.Action | app/routes/webhooks.jsx:4-43 | The method's new state and status are those of the action function. |
| Webhooks.AlwaysAcknowledged | app/routes/webhooks.jsx:4-43 | Every call answers 200. |
| Webhooks.OtherTopicNoChange | app/routes/webhooks.jsx:7-39 | Any topic other than `APP_UNINSTALLED` changes nothing. |
| Webhooks.UninstallCleansSessions | app/routes/webhooks.jsx:8-34 | On uninstall, the shop's sessions are deleted and other sessions are kept. Records are never touched. Tags are removed by the shared loop only when a client is present. |
| WebhooksUninstalled.UninstalledAction | app/routes/webhooks.app.uninstalled.jsx:4-29 | No contract of its own; `WebhooksUninstalled.StatusMapping`, `Effects` and `ExactlyStaticTagsRemoved` state what it does. |
| WebhooksUninstalled.Action | app/routes/webhooks.app.uninstalled.jsx:4-29 | The method's new state and status are those of the action function. |
| WebhooksUninstalled.StatusMapping | app/routes/webhooks.app.uninstalled.jsx:16-28 | The status is 500 exactly when a session is present and the session deletion throws. A tag-removal failure never causes a 500. |
| WebhooksUninstalled.Effects | app/routes/webhooks.app.uninstalled.jsx:4-29 | Tags change only when a client is present, and then by the shared removal with the static-host pattern. Sessions are deleted only when a session is present. Records and webhooks never change. |
| WebhooksUninstalled.ExactlyStaticTagsRemoved | app/routes/webhooks.app.uninstalled.jsx:54-77 | With a working client, exactly the tags among the first 250 whose `src` contains `staticsave.com/pagetest/` are removed. |
| WebhooksInstalled.InstalledAction | app/routes/webhooks.app.installed.jsx:4-78 | No contract of its own; `WebhooksInstalled.StatusMapping`, `CreatesTag` and `NInstallsAddN` state what it does. |
| WebhooksInstalled.Action | app/routes/webhooks.app.installed.jsx:4-78 | The method's new state and status are those of the action function. |
| WebhooksInstalled.StatusMapping | app/routes/webhooks.app.installed.jsx:46-77 | The status is 500 exactly when the call throws. A response with user errors is still 200. A 500 changes nothing. |
| WebhooksInstalled.CreatesTag | app/routes/webhooks.app.installed.jsx:14-41 | A clean create appends exactly the static-host tag. No shop record, session or webhook changes. |
| WebhooksInstalled.NInstallsAddN | app/routes/webhooks.app.installed.jsx:16-41 | There is no existence check, so `n` deliveries add `n` tags with the same `src`. The old tags and the id invariant are kept. |
| ShopDataApi.Loader | app/routes/api.shop-data.jsx:5-74 | No contract of its own; `ShopDataApi.PreflightFirst`, `MissingDomainFirst`, `InvalidTypeRejected`, `UnknownShop`, `SuccessBody` and `AlwaysCors` state its paths. |
| ShopDataApi.PreflightFirst | app/routes/api.shop-data.jsx:12-16 | `OPTIONS` is answered with 200, no body and the CORS headers, before any validation. |
| ShopDataApi.MissingDomainFirst | app/routes/api.shop-data.jsx:22-30 | A missing or empty domain is the first error, with status 400, whatever the type. |
| ShopDataApi.InvalidTypeRejected | app/routes/api.shop-data.jsx:32-40 | With a domain, the request is rejected with "Invalid data type" exactly when the type is neither `pages` nor `products`. |
| ShopDataApi.UnknownShop | app/routes/api.shop-data.jsx:42-55 | A valid request is a 404 "Shop not found" exactly when the domain has no record. |
| ShopDataApi.SuccessBody | app/routes/api.shop-data.jsx:57-73 | A success carries the team hash and exactly the requested stored value when it is truthy. A falsy stored value is returned as the empty array. |
| ShopDataApi.OrEmpty | app/routes/api.shop-data.jsx:62-67 | No contract of its own; `ShopDataApi.OrEmptyCases` states which values pass and which become the empty array. |
| ShopDataApi.OrEmptyCases | app/routes/api.shop-data.jsx:62-67 | The empty-array fallback passes arrays, non-empty strings and other truthy values on unchanged. A missing value, the empty string and `null` become the empty array. |
| ShopDataApi.AlwaysCors | app/routes/api.shop-data.jsx:6-73 | Every response carries the same three CORS headers. The status is 200, 400 or 404, and a list body is returned exactly on the success path. |
| ShopDataApi.FreshRecordServesEmpty | app/routes/api.shop-data.jsx:57-73 | A freshly initialised record is served as an empty list of either kind, without a team hash. |
| LegacyShopDataApi.Loader | app/routes/api/shop-data.js:5-27 | No contract of its own; `LegacyShopDataApi.MissingDomain`, `UnknownDomain` and `PassThrough` state its paths. |
| LegacyShopDataApi.MissingDomain | app/routes/api/shop-data.js:9-11 | The response is 400 exactly for a missing or empty domain, with no headers. |
| LegacyShopDataApi.UnknownDomain | app/routes/api/shop-data.js:13-20 | The response is 404 exactly for an unknown domain, with no headers. |
| LegacyShopDataApi.PassThrough | app/routes/api/shop-data.js:22-26 | A known domain gets its stored selections unchanged. Caching is disabled exactly on that 200, and no response carries CORS headers. |
| ScriptServing.AppUrl | app/routes/pagetest.custom-script.jsx:6 | No contract of its own; `ScriptServing.AppUrlDefault` states the fallback. |
| ScriptServing.Loader | app/routes/pagetest.custom-script.jsx:4-40 | No contract of its own; `ScriptServing.PlaceholderAbsent`, `FirstOccurrenceReplaced`, `PlaceholderSubstituted`, `DoubleDollarInAppUrl`, `MatchPatternInAppUrl`, `ConfigLineKeepsTail` and `ResponseShape` state what it serves. |
| ScriptServing.AppUrlDefault | app/routes/pagetest.custom-script.jsx:6 | An unset or empty variable gives `https://your-app-domain.com`. Any other value is used as it is. |
| ScriptServing.PlaceholderAbsent | app/routes/pagetest.custom-script.jsx:14-27 | A file without the placeholder is served unchanged with status 200. |
| ScriptServing.FirstOccurrenceReplaced | app/routes/pagetest.custom-script.jsx:14-17 | Only the first placeholder is replaced by a `$`-free URL, and all surrounding text is kept. |
| ScriptServing.ReplaceAfterDollarFree | app/routes/pagetest.custom-script.jsx:14-17 | A placeholder preceded only by `$`-free text is the occurrence that gets replaced. |
| ScriptServing.PlaceholderSubstituted | app/routes/pagetest.custom-script.jsx:14-17 | A placeholder preceded only by `$`-free text is replaced by the app URL as `replace` reads it, with its `$` patterns interpreted, and the text around it is kept. |
| ScriptServing.DoubleDollarInAppUrl | app/routes/pagetest.custom-script.jsx:14-17 | An app URL `a$$b` is served as `a$b`: `$$` becomes one dollar sign. |
| ScriptServing.MatchPatternInAppUrl | app/routes/pagetest.custom-script.jsx:14-17 | An app URL `$&` serves the placeholder itself, so the file comes out unchanged. |
| ScriptServing.ConfigLineKeepsTail | app/helpers/custom-script.js:2-3 | Serving the script's configuration line leaves the fallback expression (the or-operator, the default domain in quotes, the closing brace and quote) after the substituted URL. |
| ScriptServing.ResponseShape | app/routes/pagetest.custom-script.jsx:20-39 | A read failure gives the fixed error script, status 500 and only the content type. A success gives 200 and the three headers. |
| CatalogLoader.Flatten | app/routes/app._index.jsx:41 | No contract of its own; `CatalogLoader.FlattenSnoc` and `CatalogLoader.FlattenAppend` state how gathering composes. |
| CatalogLoader.FlattenSnoc | app/routes/app._index.jsx:41 | Gathering one more answer appends exactly that answer's nodes. |
| CatalogLoader.FirstStop | app/routes/app._index.jsx:31-54 | The first answer that ends the loop: it has no next page or pushes the total over 5000, and no earlier answer does. |
| CatalogLoader.FetchAllItems | app/routes/app._index.jsx:26-57 | The loop gathers the nodes of every answer up to the first stopping one. The first call sends no cursor and each later call sends the previous end cursor. The cap had not been passed before the last call. A call that throws or answers without data before the stop rejects the whole fetch, and no later call is made. |
| CatalogLoader.Project | app/routes/app._index.jsx:108-116 | Each node becomes an item with the same id and title, in the same order. |
| CatalogLoader.Loader | app/routes/app._index.jsx:102-116 | Pages and products are each fetched to their stop and projected. The loader rejects exactly when either fetch rejects. |
| CatalogLoader.FlattenAppend | app/routes/app._index.jsx:42-46 | Gathering is concatenation over consecutive answers. |
| CatalogLoader.StopsAtLastPage | app/routes/app._index.jsx:44-53 | Below the cap, the loop stops at the first answer without a next page. |
| CatalogLoader.CapOvershoot | app/routes/app._index.jsx:48-53 | The items gathered exceed 5000 by less than one answer's worth. |
| CatalogLoader.AfterParam | app/routes/app._index.jsx:61 | No contract of its own; `CatalogLoader.QueryShape` states when the clause appears. |
| CatalogLoader.ConnectionQuery | app/routes/app._index.jsx:62-77 | No contract of its own; `CatalogLoader.QueryShape` states the page size and the cursor clause. |
| CatalogLoader.QueryShape | app/routes/app._index.jsx:61-64 | The `after` clause appears exactly for a truthy cursor, quoting it. Every query asks for `first: 250`. |
| Dashboard.Ids | app/components/Dashboard.jsx:50 | The catalog ids, in order. |
| Dashboard.NonEmptyEntries | app/components/Dashboard.jsx:78 | `filter(Boolean)` keeps every non-empty id as often as it occurs and drops every empty one. Its length is the input length minus the number of empty ids. |
| Dashboard.NonEmptyEntriesAppend | app/components/Dashboard.jsx:78 | The filter acts piece by piece, so the kept ids stay in their order. |
| Dashboard.Options | app/components/Dashboard.jsx:102-111 | One option per item, with the item's id as value and its title as label. |
| Dashboard.DashboardState.constructor | app/components/Dashboard.jsx:24-31 | The cells start from the initial lists, or empty ones, with both flags off. |
| Dashboard.DashboardState.Mount | app/components/Dashboard.jsx:113-121 | The mount effect recomputes both flags. |
| Dashboard.DashboardState.HandleAllPagesChange | app/components/Dashboard.jsx:45-54 | The state becomes the page-toggle function of the old state. |
| Dashboard.DashboardState.HandleAllProductsChange | app/components/Dashboard.jsx:57-66 | The state becomes the product-toggle function of the old state. |
| Dashboard.DashboardState.HandlePagesChange | app/components/Dashboard.jsx:69-74 | The state becomes the page-choice function of the old state. |
| Dashboard.DashboardState.HandleProductsChange | app/components/Dashboard.jsx:77-80 | The state becomes the product-choice function of the old state. |
| Dashboard.DashboardState.ToggleToast | app/components/Dashboard.jsx:39-42 | The toast is shown with the message, and nothing else changes. |
| Dashboard.DashboardState.HandleSaveSettings | app/components/Dashboard.jsx:83-99 | At most one submission is added, and the toast message is the save outcome's. The selection is unchanged. |
| Dashboard.Initial | app/components/Dashboard.jsx:24-31 | No contract of its own; `Dashboard.InitialThenMounted` and `Dashboard.DashboardState.constructor` state the starting cells. |
| Dashboard.Mounted | app/components/Dashboard.jsx:113-121 | No contract of its own; `Dashboard.InitialThenMounted` states the flags after mounting. |
| Dashboard.ToggleAllPages | app/components/Dashboard.jsx:45-54 | No contract of its own; `Dashboard.ToggleAllPagesEffect` and `Dashboard.TogglePagesParity` state its effect. |
| Dashboard.ToggleAllProducts | app/components/Dashboard.jsx:57-66 | No contract of its own; `Dashboard.ToggleAllProductsEffect` states its effect. |
| Dashboard.ChoosePages | app/components/Dashboard.jsx:69-74 | No contract of its own; `Dashboard.ChoosePagesEffect`, `FlagAsymmetry` and `SelectEveryOption` state its effect. |
| Dashboard.ChooseProducts | app/components/Dashboard.jsx:77-80 | No contract of its own; `Dashboard.ChooseProductsEffect` and `Dashboard.FlagAsymmetry` state its effect. |
| Dashboard.SaveOutcome | app/components/Dashboard.jsx:83-99 | No contract of its own; `Dashboard.SaveEffect` states both outcomes. |
| Dashboard.InitialThenMounted | app/components/Dashboard.jsx:24-121 | The lists start as given, or empty. After mounting, a flag is on exactly when its list is as long as a non-empty catalog. |
| Dashboard.ToggleAllPagesEffect | app/components/Dashboard.jsx:45-54 | Toggling "All Pages" on selects every page id in catalog order. Toggling it off clears the list. The product cells are untouched. |
| Dashboard.ToggleAllProductsEffect | app/components/Dashboard.jsx:57-66 | The same holds for "All Products". |
| Dashboard.TogglePagesParity | app/components/Dashboard.jsx:45-54 | After `n` toggles the flag has flipped `n` times and the list matches the flag. |
| Dashboard.ChoosePagesEffect | app/components/Dashboard.jsx:69-74 | The chosen pages are stored verbatim. The flag is on exactly when every page is chosen and there is at least one. |
| Dashboard.ChooseProductsEffect | app/components/Dashboard.jsx:77-80 | Empty product ids are dropped and the rest kept. The flag is on exactly when the kept count equals the catalog size, with no non-empty condition. |
| Dashboard.FlagAsymmetry | app/components/Dashboard.jsx:69-80 | With an empty catalog and an empty choice, the product flag turns on while the page flag stays off. |
| Dashboard.SaveEffect | app/components/Dashboard.jsx:83-99 | With both catalogs empty, the save submits nothing and warns. Otherwise it submits exactly the current lists under its action type and reports success. |
| Dashboard.SelectEveryOption | app/components/Dashboard.jsx:69-111 | Choosing every option from a state with the flag off equals the "All Pages" toggle. |
| Lifecycle.FreshInstallSelectsNothing | app/shopify.server.js:33-82 | Right after a new shop authenticates, no page of that shop is under test. |
| Lifecycle.StoredProductsDecide | app/routes/api.shop-data.jsx:57-73 | For a stored shop, a product page is under test exactly when the stored product value, served with its empty-array fallback and normalised by the client, is non-empty and contains the page's product id. |
| Lifecycle.StoredStringIsSplit | app/routes/api.shop-data.jsx:67 | A product list stored as a non-empty string reaches the client unchanged and is split on commas there. An empty stored string selects nothing. |
| Lifecycle.UnknownShopSelectsNothing | app/routes/api.shop-data.jsx:47-55 | For an unknown shop, the 404 leads the client to select nothing. |
| Lifecycle.AfterAuthTagMatchesGenericRoute | app/routes/webhooks.jsx:72 | The tag added after authentication matches the generic uninstall route's pattern. |
| Lifecycle.InstalledTagMatchesDedicatedRoute | app/routes/webhooks.app.uninstalled.jsx:54 | The tag added on install matches the dedicated uninstall route's pattern. |
| Lifecycle.AuthThenUninstall | app/routes/webhooks.jsx:46-102 | Authenticating and then uninstalling with a working client leaves no listed tag with the after-authentication URL, and keeps the shop record. |

## Left out

- **Selection values.** Array elements that are not strings, and numeric ids, are not modelled. Every id is its string form.
- **Browser and JSON inputs.** JSON parsing, the DOM, `window`, the `fetch` transport and GraphQL query text are inputs or left out. The page context and the parsed payload are given as values.
- **Authentication.** `authenticate.admin` and `authenticate.webhook` are not part of this model, nor is a missing session in the install route, where `session.shop` would throw outside the `try`. The handlers take the shop and the optional client as parameters.
- **Ordering.** `Promise.all` in the index loader is modelled as the two fetches in sequence. React re-render batching and stale closures in the dashboard handlers are not modelled: every handler reads the current state.
- **Catalog answers.** `CatalogLoader.FetchAllItems` is given the server's answers as a sequence. It requires that some answer ends the loop; the source would loop forever otherwise. Which call fails, if any, is an input.
- **Partial creates.** A create that took effect on the platform but whose response was lost is not modelled. A throwing call changes nothing, and the same holds for a delete that throws.
- **Delete user errors.** The user errors of `scriptTagDelete` are ignored by the source and are not part of this model.
- **Lookup failures.** A throwing database lookup in the two lookup endpoints is uncaught in the source and is not modelled. The `Content-Type` that `json()` adds is not listed among the headers.
- **Unset selections.** A shop record whose `selections` value is itself `null` is not modelled. A record always has a selections object, whose two entries may hold any JSON value.
- ShopifyServer.AfterAuth: `shopify.registerWebhooks` is called without `await` and its outcome is never checked. The model treats registration as always succeeding, before the record is created, so `ShopifyServer.AfterAuthOutcome` gets `domain in webhookShops` by construction.
- **Not part of this model:** UI rendering and the login and logo components; `utils.js`; `fix-imports.js`; `db.server.js`; `app/routes/_index/route.jsx`; `custom-snippet.js.jsx`; `auth.$.jsx`; the `shopifyApp` configuration.
- **Saving.** The server-side action that stores a dashboard submission is not in the modelled files. The model stops at the submitted form data.
- **The dedicated uninstall route.** The model does not prove that this route leaves the after-authentication tag in place. Only the positive matches are stated, in `Lifecycle.AfterAuthTagMatchesGenericRoute` and `Lifecycle.InstalledTagMatchesDedicatedRoute`.
- **Logging.** Console logging is left out.
