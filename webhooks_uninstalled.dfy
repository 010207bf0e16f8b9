/** The dedicated uninstall route: remove the tags whose `src` contains the
    static-host pattern when a client is present, then delete the shop's
    sessions when a session is present; 200 on success, 500 when the session
    deletion throws. Tag-removal failures are swallowed inside the removal. */
module WebhooksUninstalled {
  import opened Common
  import opened JsString
  import opened Store
  import opened Webhooks

  const StaticSavePattern := "staticsave.com/pagetest/"

  /** The action: the new store and the status. */
  function UninstalledAction(st: StoreState, shop: string, admin: Option<AdminApi>, sessionPresent: bool, db: DbBehaviour): (StoreState, int)
  {
    var afterTags := if admin.Some? then RemovedTags(st, StaticSavePattern, admin.value).0 else st;
    if !sessionPresent then (afterTags, 200)
    else if db.DbFails? then (afterTags, 500)
    else (afterTags.(sessions := WithoutShopSessions(afterTags.sessions, shop)), 200)
  }

  method Action(store: AppStore, shop: string, admin: Option<AdminApi>, sessionPresent: bool, db: DbBehaviour) returns (status: int)
    modifies store
    ensures (store.State(), status) == UninstalledAction(old(store.State()), shop, admin, sessionPresent, db)
  {
    if admin.Some? {
      var _ := RemoveMatchingTags(store, StaticSavePattern, admin.value);
    }
    if sessionPresent {
      if db.DbFails? {
        return 500;
      }
      store.DeleteSessions(shop);
    }
    status := 200;
  }

  // ---- Properties ----

  /** The status is 500 exactly when a session is present and its deletion
      throws; in particular no tag-removal failure ever causes a 500. */
  lemma StatusMapping(st: StoreState, shop: string, admin: Option<AdminApi>, sessionPresent: bool, db: DbBehaviour)
    ensures var status := UninstalledAction(st, shop, admin, sessionPresent, db).1;
            && (status == 500 <==> sessionPresent && db.DbFails?)
            && (status == 200 <==> !(sessionPresent && db.DbFails?))
  {
  }

  /** Tags are touched only with a client, and then exactly as the shared
      removal with this route's pattern; sessions are deleted only when a
      session is present; shop records and webhooks are never changed. */
  lemma Effects(st: StoreState, shop: string, admin: Option<AdminApi>, sessionPresent: bool, db: DbBehaviour)
    ensures var r := UninstalledAction(st, shop, admin, sessionPresent, db).0;
            && (admin.None? ==> r.scriptTags == st.scriptTags)
            && (admin.Some? ==> r.scriptTags == RemovedTags(st, "staticsave.com/pagetest/", admin.value).0.scriptTags)
            && (!(sessionPresent && db.DbAvailable?) ==> r.sessions == st.sessions)
            && (sessionPresent && db.DbAvailable? ==> forall s :: s in r.sessions <==> s in st.sessions && s.shop != shop)
            && r.shops == st.shops && r.webhookShops == st.webhookShops
  {
  }

  /** With a working client, exactly the first-250 tags containing the
      pattern are removed, all others kept, whatever happens to the session. */
  lemma ExactlyStaticTagsRemoved(st: StoreState, shop: string, admin: AdminApi, sessionPresent: bool, db: DbBehaviour)
    requires Valid(st) && admin.listSucceeds && admin.deleteThrowsAt.None?
    ensures var r := UninstalledAction(st, shop, Some(admin), sessionPresent, db).0;
            forall i :: 0 <= i < |st.scriptTags| ==>
              (st.scriptTags[i] in r.scriptTags <==> !(i < ListLimit && Includes(st.scriptTags[i].src, "staticsave.com/pagetest/")))
  {
    ExactlyMatchingRemoved(st, StaticSavePattern, admin);
  }
}
