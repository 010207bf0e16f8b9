/** The simulated install action: create the shop record when it is absent
    and only then inject the script tag (its own URL variant), answering with
    a success flag and a message, or the error of a failing database call. */
module TestAuth {
  import opened Common
  import opened Store
  import opened ShopifyServer

  /** `${process.env.SHOPIFY_APP_URL}/public/custom-script`; an unset variable
      renders as "undefined". */
  function TestAuthScriptUrl(appUrl: Option<string>): string
  {
    Interpolate(appUrl) + "/public/custom-script"
  }

  /** The JSON the action answers with. */
  datatype ActionReply = ActionReply(success: bool, message: Option<string>, error: Option<string>)

  const AlreadyExists := "Shop already exists"

  function CreatedMessage(domain: string, injected: bool): string
  {
    "Created shop " + domain + " and injected script tag: " + BoolText(injected)
  }

  /** The action as a function of the store. */
  function Action(st: StoreState, domain: string, admin: AdminApi, db: DbBehaviour, appUrl: Option<string>): (StoreState, ActionReply)
  {
    if db.DbFails? then (st, ActionReply(false, None, Some(db.message)))
    else if domain in st.shops then (st, ActionReply(false, Some(AlreadyExists), None))
    else
      var (st', injected) := InjectTag(AddShop(st, domain), TestAuthScriptUrl(appUrl), admin);
      (st', ActionReply(true, Some(CreatedMessage(domain, injected)), None))
  }

  method TestAuthAction(store: AppStore, domain: string, admin: AdminApi, db: DbBehaviour, appUrl: Option<string>)
    returns (reply: ActionReply)
    modifies store
    ensures (store.State(), reply) == Action(old(store.State()), domain, admin, db, appUrl)
  {
    if db.DbFails? {
      return ActionReply(false, None, Some(db.message));
    }
    if domain in store.shops {
      return ActionReply(false, Some(AlreadyExists), None);
    }
    store.CreateShop(domain);
    var injected := InjectScriptTag(store, TestAuthScriptUrl(appUrl), admin);
    reply := ActionReply(true, Some(CreatedMessage(domain, injected)), None);
  }

  // ---- Properties ----

  /** No record: one with empty selections is created, the tag injection
      runs on the new state, and the reply reports success with the
      injection's result in its message. */
  lemma CreatePath(st: StoreState, domain: string, admin: AdminApi, appUrl: Option<string>)
    requires domain !in st.shops
    ensures var (r, reply) := Action(st, domain, admin, DbAvailable, appUrl);
            var (injected, ok) := InjectTag(AddShop(st, domain), TestAuthScriptUrl(appUrl), admin);
            && r == injected
            && r.shops == st.shops[domain := FreshRecord]
            && reply.success && reply.error.None?
            && reply.message == Some("Created shop " + domain + " and injected script tag: " + (if ok then "true" else "false"))
  {
  }

  /** An existing record: "Shop already exists", and neither the store nor
      the tags change. */
  lemma ExistingShopUnchanged(st: StoreState, domain: string, admin: AdminApi, appUrl: Option<string>)
    requires domain in st.shops
    ensures Action(st, domain, admin, DbAvailable, appUrl) == (st, ActionReply(false, Some("Shop already exists"), None))
  {
  }

  /** A failing database call: the error message, nothing changed. */
  lemma ErrorReply(st: StoreState, domain: string, admin: AdminApi, message: string, appUrl: Option<string>)
    ensures Action(st, domain, admin, DbFails(message), appUrl) == (st, ActionReply(false, None, Some(message)))
  {
  }

  /** Tags change only on the create path, and then only by the variant URL. */
  lemma InjectionOnlyWhenCreated(st: StoreState, domain: string, admin: AdminApi, db: DbBehaviour, appUrl: Option<string>)
    ensures var (r, reply) := Action(st, domain, admin, db, appUrl);
            && (r.scriptTags != st.scriptTags ==> reply.success && domain !in st.shops && db.DbAvailable?)
            && (r.scriptTags != st.scriptTags ==>
                  r.scriptTags == st.scriptTags + [ScriptTag(st.nextTagId, TestAuthScriptUrl(appUrl), "ONLINE_STORE", false)])
            && (reply.success <==> db.DbAvailable? && domain !in st.shops)
  {
  }

  /** The variant URL with the environment variable unset or set. */
  lemma VariantUrl(appUrl: string)
    ensures TestAuthScriptUrl(None) == "undefined/public/custom-script"
    ensures TestAuthScriptUrl(Some(appUrl)) == appUrl + "/public/custom-script"
  {
  }
}
