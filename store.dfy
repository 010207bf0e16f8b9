/** The external state the server-side handlers read and change: the shop
    table (one selections record per shop domain), the session table, the
    shop's script tags as the commerce platform holds them, and the shops for
    which the uninstall webhook is registered. `StoreState` is its value view,
    `AppStore` the mutable store the handlers act on. */
module Store {
  import opened Common
  import opened Storefront

  /** The `selections` JSON of a shop record: each list is whatever JSON
      value is stored under its key. */
  datatype Selections = Selections(selectedPages: FieldValue, selectedProducts: FieldValue)

  /** A row of the shop table, keyed by domain. */
  datatype ShopRecord = ShopRecord(selections: Selections, teamHash: Option<string>)

  /** A row of the session table. */
  datatype Session = Session(id: string, shop: string)

  /** A storefront script tag; the platform assigns its id. */
  datatype ScriptTag = ScriptTag(id: nat, src: string, displayScope: string, cache: bool)

  datatype StoreState = StoreState(
    shops: map<string, ShopRecord>,
    sessions: seq<Session>,
    scriptTags: seq<ScriptTag>,
    nextTagId: nat,
    webhookShops: set<string>)

  /** The record created on first authentication. */
  const FreshRecord := ShopRecord(Selections(ArrayValue([]), ArrayValue([])), None)

  /** Every script-tag listing asks for `first: 250`. */
  const ListLimit := 250

  const OnlineStore := "ONLINE_STORE"

  /** How one database call ends. */
  datatype DbBehaviour = DbAvailable | DbFails(message: string)

  /** How one `scriptTagCreate` call ends: a response with its `userErrors`,
      or an exception. */
  datatype CreateBehaviour = CreateResponse(userErrors: seq<string>) | CreateThrows

  /** How the Admin API behaves during one handler: whether the tag listing
      succeeds, how a create ends, and at which delete (if any) an exception
      is thrown. */
  datatype AdminApi = AdminApi(listSucceeds: bool, create: CreateBehaviour, deleteThrowsAt: Option<nat>)

  /** A create that takes effect: a response without user errors. */
  predicate Creates(b: CreateBehaviour)
  {
    b.CreateResponse? && |b.userErrors| == 0
  }

  /** Platform-assigned tag ids are unique and below the next id. */
  ghost predicate Valid(st: StoreState)
  {
    && (forall i :: 0 <= i < |st.scriptTags| ==> st.scriptTags[i].id < st.nextTagId)
    && DistinctIds(st.scriptTags)
  }

  /** `scriptTags(first: 250)`: the tags a listing returns. */
  function Listed(tags: seq<ScriptTag>): (r: seq<ScriptTag>)
    ensures |r| <= ListLimit && |r| <= |tags| && r == tags[..|r|]
    ensures |tags| <= ListLimit ==> r == tags
    ensures |tags| > ListLimit ==> r == tags[..ListLimit]
  {
    if |tags| <= ListLimit then tags else tags[..ListLimit]
  }

  /** The tags whose id is not in `ids`, in their order. */
  function WithoutIds(tags: seq<ScriptTag>, ids: set<nat>): (r: seq<ScriptTag>)
    ensures |r| <= |tags|
    ensures forall t :: t in r <==> t in tags && t.id !in ids
    decreases |tags|
  {
    if |tags| == 0 then []
    else if tags[0].id in ids then WithoutIds(tags[1..], ids)
      else [tags[0]] + WithoutIds(tags[1..], ids)
  }

  /** Deletion keeps the order of the tags: it works piece by piece. */
  lemma {:induction false} WithoutIdsAppend(a: seq<ScriptTag>, b: seq<ScriptTag>, ids: set<nat>)
    ensures WithoutIds(a + b, ids) == WithoutIds(a, ids) + WithoutIds(b, ids)
    decreases |a|
  {
    if |a| > 0 {
      var ab := a + b;
      assert ab[0] == a[0] && ab[1..] == a[1..] + b;
      WithoutIdsAppend(a[1..], b, ids);
      var x, y := WithoutIds(a[1..], ids), WithoutIds(b, ids);
      if a[0].id !in ids {
        assert WithoutIds(ab, ids) == [a[0]] + (x + y);
        assert [a[0]] + (x + y) == ([a[0]] + x) + y;
      }
    } else {
      assert a + b == b;
    }
  }

  /** Deleting ids one after another is deleting them all at once. */
  lemma {:induction false} WithoutIdsTwice(tags: seq<ScriptTag>, a: set<nat>, b: set<nat>)
    ensures WithoutIds(WithoutIds(tags, a), b) == WithoutIds(tags, a + b)
    decreases |tags|
  {
    if |tags| > 0 {
      WithoutIdsTwice(tags[1..], a, b);
      if tags[0].id !in a {
        assert ([tags[0]] + WithoutIds(tags[1..], a))[1..] == WithoutIds(tags[1..], a);
      }
    }
  }

  /** Deleting no id changes nothing. */
  lemma {:induction false} WithoutNoIds(tags: seq<ScriptTag>)
    ensures WithoutIds(tags, {}) == tags
    decreases |tags|
  {
    if |tags| > 0 {
      WithoutNoIds(tags[1..]);
      assert tags == [tags[0]] + tags[1..];
    }
  }

  /** Deletion keeps every other tag as often as it occurs, and drops every
      copy of a deleted one. */
  lemma {:induction false} WithoutIdsMultiplicity(tags: seq<ScriptTag>, ids: set<nat>)
    ensures forall t :: multiset(WithoutIds(tags, ids))[t] == if t.id in ids then 0 else multiset(tags)[t]
    decreases |tags|
  {
    if |tags| > 0 {
      WithoutIdsMultiplicity(tags[1..], ids);
      assert tags == [tags[0]] + tags[1..];
    }
  }

  /** No two tags share an id. */
  ghost predicate DistinctIds(tags: seq<ScriptTag>)
  {
    forall i, j :: 0 <= i < j < |tags| ==> tags[i].id != tags[j].id
  }

  lemma DistinctCons(t: ScriptTag, rest: seq<ScriptTag>)
    requires DistinctIds(rest)
    requires forall u :: u in rest ==> u.id != t.id
    ensures DistinctIds([t] + rest)
  {
    var r := [t] + rest;
    forall i, j | 0 <= i < j < |r| ensures r[i].id != r[j].id {
      assert r[j] == rest[j - 1];
      if i > 0 { assert r[i] == rest[i - 1]; }
    }
  }

  /** Removing tags keeps ids distinct. */
  lemma {:induction false} WithoutIdsDistinct(tags: seq<ScriptTag>, ids: set<nat>)
    requires DistinctIds(tags)
    ensures DistinctIds(WithoutIds(tags, ids))
    decreases |tags|
  {
    if |tags| > 0 {
      assert DistinctIds(tags[1..]) by {
        forall i, j | 0 <= i < j < |tags[1..]| ensures tags[1..][i].id != tags[1..][j].id {
          assert tags[1..][i] == tags[i + 1] && tags[1..][j] == tags[j + 1];
        }
      }
      WithoutIdsDistinct(tags[1..], ids);
      if tags[0].id !in ids {
        forall u | u in WithoutIds(tags[1..], ids) ensures u.id != tags[0].id {
          var k :| 0 <= k < |tags[1..]| && tags[1..][k] == u;
          assert tags[k + 1] == u;
        }
        DistinctCons(tags[0], WithoutIds(tags[1..], ids));
      }
    }
  }

  /** Removing tags keeps the id invariant. */
  lemma WithoutIdsValid(st: StoreState, ids: set<nat>)
    requires Valid(st)
    ensures Valid(st.(scriptTags := WithoutIds(st.scriptTags, ids)))
  {
    assert DistinctIds(st.scriptTags);
    WithoutIdsDistinct(st.scriptTags, ids);
    var r := WithoutIds(st.scriptTags, ids);
    forall i | 0 <= i < |r| ensures r[i].id < st.nextTagId {
      assert r[i] in st.scriptTags;
    }
  }

  /** The sessions that do not belong to `shop`, in their order. */
  function WithoutShopSessions(sessions: seq<Session>, shop: string): (r: seq<Session>)
    ensures forall s :: s in r <==> s in sessions && s.shop != shop
    decreases |sessions|
  {
    if |sessions| == 0 then []
    else if sessions[0].shop == shop then WithoutShopSessions(sessions[1..], shop)
      else [sessions[0]] + WithoutShopSessions(sessions[1..], shop)
  }

  /** Session deletion keeps the order of the remaining sessions. */
  lemma {:induction false} WithoutShopSessionsAppend(a: seq<Session>, b: seq<Session>, shop: string)
    ensures WithoutShopSessions(a + b, shop) == WithoutShopSessions(a, shop) + WithoutShopSessions(b, shop)
    decreases |a|
  {
    if |a| > 0 {
      var ab := a + b;
      assert ab[0] == a[0] && ab[1..] == a[1..] + b;
      WithoutShopSessionsAppend(a[1..], b, shop);
      var x, y := WithoutShopSessions(a[1..], shop), WithoutShopSessions(b, shop);
      if a[0].shop != shop {
        assert WithoutShopSessions(ab, shop) == [a[0]] + (x + y);
        assert [a[0]] + (x + y) == ([a[0]] + x) + y;
      }
    } else {
      assert a + b == b;
    }
  }

  /** Session deletion keeps every session of another shop as often as it
      occurs. */
  lemma {:induction false} WithoutShopSessionsMultiplicity(sessions: seq<Session>, shop: string)
    ensures forall s :: multiset(WithoutShopSessions(sessions, shop))[s] == if s.shop == shop then 0 else multiset(sessions)[s]
    decreases |sessions|
  {
    if |sessions| > 0 {
      WithoutShopSessionsMultiplicity(sessions[1..], shop);
      assert sessions == [sessions[0]] + sessions[1..];
    }
  }

  /** The state after `prisma.shop.create` of a fresh record. */
  function AddShop(st: StoreState, domain: string): StoreState
  {
    st.(shops := st.shops[domain := FreshRecord])
  }

  /** The state after a successful `scriptTagCreate` for `src`. */
  function AppendTag(st: StoreState, src: string): (r: StoreState)
    ensures Valid(st) ==> Valid(r)
  {
    st.(scriptTags := st.scriptTags + [ScriptTag(st.nextTagId, src, OnlineStore, false)],
        nextTagId := st.nextTagId + 1)
  }

  /** The state after `scriptTagCreate` for `src` ends as `b`. */
  function AfterCreate(st: StoreState, src: string, b: CreateBehaviour): StoreState
  {
    if Creates(b) then AppendTag(st, src) else st
  }

  /** The database, the Admin API's script tags and the webhook registry. */
  class AppStore {
    var shops: map<string, ShopRecord>
    var sessions: seq<Session>
    var scriptTags: seq<ScriptTag>
    var nextTagId: nat
    var webhookShops: set<string>

    function State(): StoreState
      reads this
    {
      StoreState(shops, sessions, scriptTags, nextTagId, webhookShops)
    }

    constructor (st: StoreState)
      ensures State() == st
    {
      shops := st.shops;
      sessions := st.sessions;
      scriptTags := st.scriptTags;
      nextTagId := st.nextTagId;
      webhookShops := st.webhookShops;
    }

    /** `prisma.shop.create` of a record with empty selections. */
    method CreateShop(domain: string)
      modifies this
      ensures State() == AddShop(old(State()), domain)
    {
      shops := shops[domain := FreshRecord];
    }

    /** `scriptTagCreate` with `displayScope: "ONLINE_STORE"` and
        `cache: false`; a tag is added only when the response has no user
        errors. */
    method CreateScriptTag(src: string, b: CreateBehaviour)
      modifies this
      ensures State() == AfterCreate(old(State()), src, b)
    {
      if Creates(b) {
        scriptTags := scriptTags + [ScriptTag(nextTagId, src, OnlineStore, false)];
        nextTagId := nextTagId + 1;
      }
    }

    /** `scriptTagDelete(id)`. */
    method DeleteScriptTag(id: nat)
      modifies this
      ensures State() == old(State()).(scriptTags := WithoutIds(old(scriptTags), {id}))
    {
      scriptTags := WithoutIds(scriptTags, {id});
    }

    /** `session.deleteMany({ where: { shop } })`. */
    method DeleteSessions(shop: string)
      modifies this
      ensures State() == old(State()).(sessions := WithoutShopSessions(old(sessions), shop))
    {
      sessions := WithoutShopSessions(sessions, shop);
    }

    /** `registerWebhooks`: the uninstall webhook is registered for the shop. */
    method RegisterWebhooks(shop: string)
      modifies this
      ensures State() == old(State()).(webhookShops := old(webhookShops) + {shop})
    {
      webhookShops := webhookShops + {shop};
    }
  }
}
