/** The install route: create the static-host script tag with no existence
    check; 200 whether or not the create reports user errors, 500 when the
    call throws. Nothing is written to the database. */
module WebhooksInstalled {
  import opened Common
  import opened Store

  /** The tag's `src`, written in three pieces so that the host part can be
      compared with the uninstall route's pattern. */
  const InstalledScriptUrl := "https://static." + "staticsave.com/pagetest/" + "custom-snippet-j.js"

  /** The action: the new store and the status. A missing client makes the
      call throw like any other failure of the request. */
  function InstalledAction(st: StoreState, admin: Option<AdminApi>): (StoreState, int)
  {
    if admin.None? || admin.value.create.CreateThrows? then (st, 500)
    else (AfterCreate(st, InstalledScriptUrl, admin.value.create), 200)
  }

  method Action(store: AppStore, admin: Option<AdminApi>) returns (status: int)
    modifies store
    ensures (store.State(), status) == InstalledAction(old(store.State()), admin)
  {
    if admin.None? || admin.value.create.CreateThrows? {
      return 500;
    }
    store.CreateScriptTag(InstalledScriptUrl, admin.value.create);
    status := 200;
  }

  /** `n` deliveries of the webhook. */
  function Installs(st: StoreState, admin: Option<AdminApi>, n: nat): StoreState
  {
    if n == 0 then st else InstalledAction(Installs(st, admin, n - 1), admin).0
  }

  // ---- Properties ----

  /** 500 exactly when the call throws; a response with user errors is
      still 200. */
  lemma StatusMapping(st: StoreState, admin: Option<AdminApi>)
    ensures var (r, status) := InstalledAction(st, admin);
            && (status == 500 <==> admin.None? || admin.value.create.CreateThrows?)
            && (status == 200 <==> admin.Some? && admin.value.create.CreateResponse?)
            && (status == 500 ==> r == st)
  {
  }

  /** A create without user errors appends exactly the static-host tag with
      the online-store scope and caching off; nothing else, and in
      particular no shop record, changes. */
  lemma CreatesTag(st: StoreState, admin: AdminApi)
    requires Creates(admin.create)
    ensures var r := InstalledAction(st, Some(admin)).0;
            && r.scriptTags == st.scriptTags + [ScriptTag(st.nextTagId, InstalledScriptUrl, "ONLINE_STORE", false)]
            && r.shops == st.shops && r.sessions == st.sessions && r.webhookShops == st.webhookShops
  {
  }

  /** With no existence check, `n` successful deliveries add `n` tags, all
      with the same `src`, and keep the shop records and the id invariant. */
  lemma {:induction false} NInstallsAddN(st: StoreState, admin: AdminApi, n: nat)
    requires Creates(admin.create) && Valid(st)
    ensures var r := Installs(st, Some(admin), n);
            && |r.scriptTags| == |st.scriptTags| + n
            && r.scriptTags[..|st.scriptTags|] == st.scriptTags
            && (forall k :: |st.scriptTags| <= k < |r.scriptTags| ==> r.scriptTags[k].src == InstalledScriptUrl)
            && r.shops == st.shops
            && Valid(r)
  {
    if n > 0 {
      NInstallsAddN(st, admin, n - 1);
      var prev := Installs(st, Some(admin), n - 1);
      var r := Installs(st, Some(admin), n);
      assert r.scriptTags == prev.scriptTags + [ScriptTag(prev.nextTagId, InstalledScriptUrl, OnlineStore, false)];
      assert r.scriptTags[..|st.scriptTags|] == prev.scriptTags[..|st.scriptTags|];
    }
  }
}
