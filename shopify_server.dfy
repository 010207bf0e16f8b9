/** The install steps run after authentication: register the uninstall
    webhook, create the shop record if it is absent, then add the storefront
    script tag unless one with the same `src` is already listed. */
module ShopifyServer {
  import opened Common
  import opened Store

  /** The script URL, a literal: the template has no `$`, so nothing is
      interpolated. */
  const AfterAuthScriptUrl := "{process.env.SHOPIFY_APP_URL}/" + "pagetest/custom-script"

  /** `initShopRecordAfterAuth`: look the domain up and create a record with
      empty selections only when none exists; a failing database call is
      logged and leaves the store as it was. */
  function InitShopRecord(st: StoreState, domain: string, db: DbBehaviour): StoreState
  {
    if db.DbFails? || domain in st.shops then st else AddShop(st, domain)
  }

  /** Some listed tag has exactly this `src`. */
  predicate HasTagWithSrc(listed: seq<ScriptTag>, src: string)
  {
    exists k | 0 <= k < |listed| :: listed[k].src == src
  }

  /** `injectScriptTag` (both copies, which differ only in the URL): the new
      state and the returned flag. */
  function InjectTag(st: StoreState, src: string, admin: AdminApi): (StoreState, bool)
  {
    if !admin.listSucceeds then (st, false)
    else if HasTagWithSrc(Listed(st.scriptTags), src) then (st, true)
    else match admin.create
      case CreateThrows => (st, false)
      case CreateResponse(userErrors) =>
        if |userErrors| > 0 then (st, false) else (AppendTag(st, src), true)
  }

  /** The `afterAuth` hook: webhooks, then the record, then the tag. */
  function AfterAuth(st: StoreState, domain: string, admin: AdminApi, db: DbBehaviour): StoreState
  {
    var registered := st.(webhookShops := st.webhookShops + {domain});
    InjectTag(InitShopRecord(registered, domain, db), AfterAuthScriptUrl, admin).0
  }

  method InitShopRecordAfterAuth(store: AppStore, domain: string, db: DbBehaviour)
    modifies store
    ensures store.State() == InitShopRecord(old(store.State()), domain, db)
  {
    if db.DbFails? {
      return;
    }
    if domain !in store.shops {
      store.CreateShop(domain);
    }
  }

  method InjectScriptTag(store: AppStore, src: string, admin: AdminApi) returns (ok: bool)
    modifies store
    ensures (store.State(), ok) == InjectTag(old(store.State()), src, admin)
  {
    if !admin.listSucceeds {
      return false;
    }
    var listed := Listed(store.scriptTags);
    if HasTagWithSrc(listed, src) {
      return true;
    }
    if admin.create.CreateThrows? {
      return false;
    }
    store.CreateScriptTag(src, admin.create);
    ok := |admin.create.userErrors| == 0;
  }

  method AfterAuthHook(store: AppStore, domain: string, admin: AdminApi, db: DbBehaviour)
    modifies store
    ensures store.State() == AfterAuth(old(store.State()), domain, admin, db)
  {
    store.RegisterWebhooks(domain);
    InitShopRecordAfterAuth(store, domain, db);
    var _ := InjectScriptTag(store, AfterAuthScriptUrl, admin);
  }

  // ---- Properties ----

  /** A record is created only when the domain has none and the database
      answers; it has empty lists; every other record, the sessions and the
      tags are left as they were. */
  lemma InitCreatesOnlyIfAbsent(st: StoreState, domain: string, db: DbBehaviour)
    ensures var r := InitShopRecord(st, domain, db);
            && (db.DbAvailable? ==> domain in r.shops)
            && (domain !in st.shops && db.DbAvailable? ==> r.shops[domain] == FreshRecord)
            && (forall d :: d in st.shops ==> d in r.shops && r.shops[d] == st.shops[d])
            && r.shops.Keys <= st.shops.Keys + {domain}
            && r.sessions == st.sessions && r.scriptTags == st.scriptTags
            && r.nextTagId == st.nextTagId && r.webhookShops == st.webhookShops
  {
  }

  /** After one successful initialisation, further calls change nothing. */
  lemma InitIdempotent(st: StoreState, domain: string, db: DbBehaviour)
    ensures var once := InitShopRecord(st, domain, DbAvailable);
            InitShopRecord(once, domain, db) == once
  {
  }

  /** A listed tag with exactly the same `src` means nothing is created and
      the result is `true`. */
  lemma InjectFindsExisting(st: StoreState, src: string, admin: AdminApi, k: nat)
    requires admin.listSucceeds
    requires k < |st.scriptTags| && k < ListLimit && st.scriptTags[k].src == src
    ensures InjectTag(st, src, admin) == (st, true)
  {
    assert Listed(st.scriptTags)[k] == st.scriptTags[k];
  }

  /** Otherwise exactly one tag with that `src`, the online-store scope and
      caching off is appended, when the create reports no user errors. */
  lemma InjectCreatesOne(st: StoreState, src: string, admin: AdminApi)
    requires admin.listSucceeds && Creates(admin.create)
    requires forall k :: 0 <= k < |st.scriptTags| && k < ListLimit ==> st.scriptTags[k].src != src
    ensures var (r, ok) := InjectTag(st, src, admin);
            && ok
            && r.scriptTags == st.scriptTags + [ScriptTag(st.nextTagId, src, "ONLINE_STORE", false)]
            && r.shops == st.shops && r.sessions == st.sessions
  {
    var listed := Listed(st.scriptTags);
    assert forall k :: 0 <= k < |listed| ==> listed[k] == st.scriptTags[k];
  }

  /** The flag is `false` exactly when the listing throws, or when no tag was
      found and the create threw or reported user errors; the tags change
      only by one appended tag, and nothing else in the store changes. */
  lemma InjectResult(st: StoreState, src: string, admin: AdminApi)
    requires Valid(st)
    ensures var (r, ok) := InjectTag(st, src, admin);
            && (!ok <==> !admin.listSucceeds || (!HasTagWithSrc(Listed(st.scriptTags), src) && !Creates(admin.create)))
            && (r == st || r == AppendTag(st, src))
            && (r != st ==> ok)
            && Valid(r)
  {
  }

  /** Re-running the injection after it created a tag creates nothing more
      exactly when the new tag falls inside the first 250 listed. */
  lemma InjectIdempotentIff(st: StoreState, src: string, a1: AdminApi, a2: AdminApi)
    requires a1.listSucceeds && a2.listSucceeds && Creates(a1.create) && Creates(a2.create)
    requires !HasTagWithSrc(Listed(st.scriptTags), src)
    ensures var once := InjectTag(st, src, a1).0;
            InjectTag(once, src, a2).0 == once <==> |st.scriptTags| < ListLimit
  {
    var once := InjectTag(st, src, a1).0;
    var n := |st.scriptTags|;
    assert once.scriptTags == st.scriptTags + [ScriptTag(st.nextTagId, src, OnlineStore, false)];
    if n < ListLimit {
      assert Listed(once.scriptTags)[n].src == src;
    } else {
      assert Listed(once.scriptTags) == Listed(st.scriptTags);
      assert |InjectTag(once, src, a2).0.scriptTags| == n + 2;
    }
  }

  /** After authentication with a working database and platform, the shop
      has a record, the webhook is registered, and a tag with the script URL
      exists unless the listing throws. */
  lemma AfterAuthOutcome(st: StoreState, domain: string, admin: AdminApi)
    requires admin.listSucceeds && Creates(admin.create)
    ensures var r := AfterAuth(st, domain, admin, DbAvailable);
            && domain in r.shops
            && (domain !in st.shops ==> r.shops[domain] == FreshRecord)
            && domain in r.webhookShops
            && exists k :: 0 <= k < |r.scriptTags| && r.scriptTags[k].src == AfterAuthScriptUrl
  {
    var mid := InitShopRecord(st.(webhookShops := st.webhookShops + {domain}), domain, DbAvailable);
    var r := AfterAuth(st, domain, admin, DbAvailable);
    if HasTagWithSrc(Listed(mid.scriptTags), AfterAuthScriptUrl) {
      var k :| 0 <= k < |Listed(mid.scriptTags)| && Listed(mid.scriptTags)[k].src == AfterAuthScriptUrl;
      assert r.scriptTags[k] == Listed(mid.scriptTags)[k];
    } else {
      assert r.scriptTags[|mid.scriptTags|].src == AfterAuthScriptUrl;
    }
  }
}
