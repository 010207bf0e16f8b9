/** The generic webhook route: on `APP_UNINSTALLED` it removes the app's
    script tags (those among the first 250 listed whose `src` contains a
    pattern) and deletes the shop's sessions; it always answers 200. The
    tag-removal loop is shared with the dedicated uninstall route, which
    differs only in its pattern. */
module Webhooks {
  import opened Common
  import opened JsString
  import opened Store

  const CustomScriptPattern := "pagetest/custom-script"
  const AppUninstalled := "APP_UNINSTALLED"
  const NoAdminMessage := "Admin API client not available"

  /** `scriptTags.filter((script) => script.src.includes(pattern))`. */
  function MatchingTags(tags: seq<ScriptTag>, pattern: string): (r: seq<ScriptTag>)
    ensures |r| <= |tags|
    ensures forall t :: t in r <==> t in tags && Includes(t.src, pattern)
    decreases |tags|
  {
    if |tags| == 0 then []
    else if Includes(tags[0].src, pattern) then [tags[0]] + MatchingTags(tags[1..], pattern)
    else MatchingTags(tags[1..], pattern)
  }

  /** Filtering keeps the order of the tags: it works piece by piece. */
  lemma {:induction false} MatchingTagsAppend(a: seq<ScriptTag>, b: seq<ScriptTag>, pattern: string)
    ensures MatchingTags(a + b, pattern) == MatchingTags(a, pattern) + MatchingTags(b, pattern)
    decreases |a|
  {
    if |a| > 0 {
      var ab := a + b;
      assert ab[0] == a[0] && ab[1..] == a[1..] + b;
      MatchingTagsAppend(a[1..], b, pattern);
      var x, y := MatchingTags(a[1..], pattern), MatchingTags(b, pattern);
      if Includes(a[0].src, pattern) {
        assert MatchingTags(ab, pattern) == [a[0]] + (x + y);
        assert [a[0]] + (x + y) == ([a[0]] + x) + y;
      }
    } else {
      assert a + b == b;
    }
  }

  /** Filtering keeps every matching tag as often as it occurs and no other. */
  lemma {:induction false} MatchingTagsMultiplicity(tags: seq<ScriptTag>, pattern: string)
    ensures forall t :: multiset(MatchingTags(tags, pattern))[t] == if Includes(t.src, pattern) then multiset(tags)[t] else 0
    decreases |tags|
  {
    if |tags| > 0 {
      MatchingTagsMultiplicity(tags[1..], pattern);
      assert tags == [tags[0]] + tags[1..];
    }
  }

  /** Filtering tags with distinct ids gives tags with distinct ids. */
  lemma {:induction false} MatchingTagsDistinct(tags: seq<ScriptTag>, pattern: string)
    requires DistinctIds(tags)
    ensures DistinctIds(MatchingTags(tags, pattern))
    decreases |tags|
  {
    if |tags| > 0 {
      assert DistinctIds(tags[1..]) by {
        forall i, j | 0 <= i < j < |tags[1..]| ensures tags[1..][i].id != tags[1..][j].id {
          assert tags[1..][i] == tags[i + 1] && tags[1..][j] == tags[j + 1];
        }
      }
      MatchingTagsDistinct(tags[1..], pattern);
      if Includes(tags[0].src, pattern) {
        forall u | u in MatchingTags(tags[1..], pattern) ensures u.id != tags[0].id {
          var k :| 0 <= k < |tags[1..]| && tags[1..][k] == u;
          assert tags[k + 1] == u;
        }
        DistinctCons(tags[0], MatchingTags(tags[1..], pattern));
      }
    }
  }

  /** The ids of some tags. */
  function TagIds(tags: seq<ScriptTag>): (r: set<nat>)
    ensures forall id :: id in r <==> exists k :: 0 <= k < |tags| && tags[k].id == id
  {
    set k | 0 <= k < |tags| :: tags[k].id
  }

  /** `removeScriptTags(admin)` with a present client: list the first 250
      tags, then delete the matching ones in order. A failed listing deletes
      nothing; a delete that throws stops the loop after the earlier
      deletes. Either failure is caught and gives `false`. */
  function RemovedTags(st: StoreState, pattern: string, admin: AdminApi): (StoreState, bool)
  {
    if !admin.listSucceeds then (st, false)
    else
      var m := MatchingTags(Listed(st.scriptTags), pattern);
      if admin.deleteThrowsAt.Some? && admin.deleteThrowsAt.value < |m| then
        (st.(scriptTags := WithoutIds(st.scriptTags, TagIds(m[..admin.deleteThrowsAt.value]))), false)
      else (st.(scriptTags := WithoutIds(st.scriptTags, TagIds(m))), true)
  }

  /** The ids of consecutive pieces are the union of their ids. */
  lemma TagIdsAppend(a: seq<ScriptTag>, b: seq<ScriptTag>)
    ensures TagIds(a + b) == TagIds(a) + TagIds(b)
  {
    var ab := a + b;
    forall id | id in TagIds(ab) ensures id in TagIds(a) + TagIds(b) {
      var k :| 0 <= k < |ab| && ab[k].id == id;
      if k < |a| { assert ab[k] == a[k]; } else { assert ab[k] == b[k - |a|]; }
    }
    forall id | id in TagIds(a) + TagIds(b) ensures id in TagIds(ab) {
      if id in TagIds(a) {
        var k :| 0 <= k < |a| && a[k].id == id;
        assert ab[k] == a[k];
      } else {
        var k :| 0 <= k < |b| && b[k].id == id;
        assert ab[k + |a|] == b[k];
      }
    }
  }

  lemma TagIdsSnoc(m: seq<ScriptTag>, i: nat)
    requires i < |m|
    ensures TagIds(m[..i + 1]) == TagIds(m[..i]) + {m[i].id}
  {
    assert m[..i + 1] == m[..i] + [m[i]];
    TagIdsAppend(m[..i], [m[i]]);
    assert TagIds([m[i]]) == {m[i].id} by {
      assert [m[i]][0] == m[i];
    }
  }

  /** The loop shared by both uninstall routes. */
  method RemoveMatchingTags(store: AppStore, pattern: string, admin: AdminApi) returns (ok: bool)
    modifies store
    ensures (store.State(), ok) == RemovedTags(old(store.State()), pattern, admin)
  {
    if !admin.listSucceeds {
      return false;
    }
    ghost var st0 := store.State();
    var m := MatchingTags(Listed(store.scriptTags), pattern);
    WithoutNoIds(st0.scriptTags);
    assert TagIds(m[..0]) == {};
    var i := 0;
    while i < |m|
      invariant 0 <= i <= |m|
      invariant admin.deleteThrowsAt.Some? ==> admin.deleteThrowsAt.value >= i
      invariant store.scriptTags == WithoutIds(st0.scriptTags, TagIds(m[..i]))
      invariant store.shops == st0.shops && store.sessions == st0.sessions
      invariant store.nextTagId == st0.nextTagId && store.webhookShops == st0.webhookShops
    {
      if admin.deleteThrowsAt.Some? && admin.deleteThrowsAt.value == i {
        return false;
      }
      store.DeleteScriptTag(m[i].id);
      WithoutIdsTwice(st0.scriptTags, TagIds(m[..i]), {m[i].id});
      TagIdsSnoc(m, i);
      i := i + 1;
    }
    assert m[..i] == m;
    ok := true;
  }

  /** How a call of `removeScriptTags` ends: it throws without a client,
      otherwise returns its flag. */
  datatype RemoveOutcome = Threw(message: string) | Returned(ok: bool)

  function RemoveScriptTagsResult(st: StoreState, admin: Option<AdminApi>): (StoreState, RemoveOutcome)
  {
    if admin.None? then (st, Threw(NoAdminMessage))
    else var (r, ok) := RemovedTags(st, CustomScriptPattern, admin.value); (r, Returned(ok))
  }

  method RemoveScriptTags(store: AppStore, admin: Option<AdminApi>) returns (outcome: RemoveOutcome)
    modifies store
    ensures (store.State(), outcome) == RemoveScriptTagsResult(old(store.State()), admin)
  {
    if admin.None? {
      return Threw(NoAdminMessage);
    }
    var ok := RemoveMatchingTags(store, CustomScriptPattern, admin.value);
    outcome := Returned(ok);
  }

  /** The route's action: the new store and the status. A failing session
      deletion is caught and logged. */
  function UninstallAction(st: StoreState, topic: string, shop: string, admin: Option<AdminApi>, db: DbBehaviour): (StoreState, int)
  {
    if topic != AppUninstalled then (st, 200)
    else
      var afterTags := if admin.Some? then RemoveScriptTagsResult(st, admin).0 else st;
      var afterSessions := if db.DbAvailable? then afterTags.(sessions := WithoutShopSessions(afterTags.sessions, shop)) else afterTags;
      (afterSessions, 200)
  }

  method Action(store: AppStore, topic: string, shop: string, admin: Option<AdminApi>, db: DbBehaviour) returns (status: int)
    modifies store
    ensures (store.State(), status) == UninstallAction(old(store.State()), topic, shop, admin, db)
  {
    if topic == AppUninstalled {
      if admin.Some? {
        var _ := RemoveScriptTags(store, admin);
      }
      if db.DbAvailable? {
        store.DeleteSessions(shop);
      }
    }
    status := 200;
  }

  // ---- Properties ----

  /** A tag of a store with distinct ids is in `TagIds(m)` of a sub-collection
      `m` exactly when it is itself in `m`. */
  lemma IdOfMember(tags: seq<ScriptTag>, m: seq<ScriptTag>, i: nat)
    requires DistinctIds(tags) && i < |tags|
    requires forall t :: t in m ==> t in tags
    ensures tags[i].id in TagIds(m) <==> tags[i] in m
  {
    if tags[i].id in TagIds(m) {
      var k :| 0 <= k < |m| && m[k].id == tags[i].id;
      assert m[k] in m;
      var j :| 0 <= j < |tags| && tags[j] == m[k];
      assert j == i;
    }
  }

  /** A listed tag is one of the first 250, when ids are distinct. */
  lemma ListedIndex(tags: seq<ScriptTag>, i: nat)
    requires DistinctIds(tags) && i < |tags|
    ensures tags[i] in Listed(tags) <==> i < ListLimit
  {
    var l := Listed(tags);
    if i < ListLimit {
      assert l[i] == tags[i];
    } else {
      forall j | 0 <= j < |l| ensures l[j] != tags[i] {
        assert l[j] == tags[j];
      }
    }
  }

  /** With every delete succeeding, a tag is removed exactly when it is among
      the first 250 and its `src` contains the pattern; the result is `true`
      and nothing but the tags changes. */
  lemma ExactlyMatchingRemoved(st: StoreState, pattern: string, admin: AdminApi)
    requires Valid(st) && admin.listSucceeds
    requires admin.deleteThrowsAt.None?
    ensures var (r, ok) := RemovedTags(st, pattern, admin);
            && ok
            && (forall i :: 0 <= i < |st.scriptTags| ==>
                  (st.scriptTags[i] in r.scriptTags <==> !(i < ListLimit && Includes(st.scriptTags[i].src, pattern))))
            && (forall t :: t in r.scriptTags ==> t in st.scriptTags)
            && r == st.(scriptTags := r.scriptTags)
            && Valid(r)
  {
    var m := MatchingTags(Listed(st.scriptTags), pattern);
    forall i | 0 <= i < |st.scriptTags|
      ensures st.scriptTags[i] in WithoutIds(st.scriptTags, TagIds(m)) <==>
                !(i < ListLimit && Includes(st.scriptTags[i].src, pattern))
    {
      IdOfMember(st.scriptTags, m, i);
      ListedIndex(st.scriptTags, i);
    }
    WithoutIdsValid(st, TagIds(m));
  }

  /** With a working client, no listed tag whose `src` contains the pattern
      survives the removal. */
  lemma ListedMatchingGone(st: StoreState, pattern: string, admin: AdminApi, src: string)
    requires Valid(st) && admin.listSucceeds && admin.deleteThrowsAt.None?
    requires Includes(src, pattern)
    ensures var r := RemovedTags(st, pattern, admin).0;
            forall k :: 0 <= k < |r.scriptTags| && r.scriptTags[k] in Listed(st.scriptTags) ==>
              r.scriptTags[k].src != src
  {
    ExactlyMatchingRemoved(st, pattern, admin);
    var r := RemovedTags(st, pattern, admin).0;
    var l := Listed(st.scriptTags);
    forall k | 0 <= k < |r.scriptTags| && r.scriptTags[k] in l
      ensures r.scriptTags[k].src != src
    {
      var j :| 0 <= j < |l| && l[j] == r.scriptTags[k];
      assert st.scriptTags[j] == l[j];
    }
  }

  /** Tags beyond the first 250 are never removed. */
  lemma BeyondListingSurvives(st: StoreState, pattern: string, admin: AdminApi, i: nat)
    requires Valid(st) && ListLimit <= i < |st.scriptTags|
    ensures st.scriptTags[i] in RemovedTags(st, pattern, admin).0.scriptTags
  {
    var tags := st.scriptTags;
    if admin.listSucceeds {
      var m := MatchingTags(Listed(tags), pattern);
      var upTo := if admin.deleteThrowsAt.Some? && admin.deleteThrowsAt.value < |m| then admin.deleteThrowsAt.value else |m|;
      assert forall t :: t in m[..upTo] ==> t in m;
      IdOfMember(tags, m[..upTo], i);
      ListedIndex(tags, i);
    }
  }

  /** A delete that throws at position `k` of the matching tags leaves exactly
      the first `k` of them removed, and the result is `false`. */
  lemma PartialRemoval(st: StoreState, pattern: string, admin: AdminApi)
    requires admin.listSucceeds && admin.deleteThrowsAt.Some?
    requires admin.deleteThrowsAt.value < |MatchingTags(Listed(st.scriptTags), pattern)|
    ensures var m := MatchingTags(Listed(st.scriptTags), pattern);
            var (r, ok) := RemovedTags(st, pattern, admin);
            && !ok
            && r.scriptTags == WithoutIds(st.scriptTags, TagIds(m[..admin.deleteThrowsAt.value]))
            && (Valid(st) ==> m[admin.deleteThrowsAt.value] in r.scriptTags)
  {
    var m := MatchingTags(Listed(st.scriptTags), pattern);
    var k := admin.deleteThrowsAt.value;
    assert m[k] in m;
    if Valid(st) {
      var l := Listed(st.scriptTags);
      assert DistinctIds(l) by {
        forall i, j | 0 <= i < j < |l| ensures l[i].id != l[j].id {
          assert l[i] == st.scriptTags[i] && l[j] == st.scriptTags[j];
        }
      }
      MatchingTagsDistinct(l, pattern);
      forall j | 0 <= j < k ensures m[..k][j].id != m[k].id {
        assert m[..k][j] == m[j];
      }
    }
  }

  /** `removeScriptTags` throws exactly without a client, and returns
      `false` exactly when the listing or a delete throws. */
  lemma RemoveOutcomes(st: StoreState, admin: Option<AdminApi>)
    ensures var (r, outcome) := RemoveScriptTagsResult(st, admin);
            && (outcome == Threw("Admin API client not available") <==> admin.None?)
            && (admin.None? ==> r == st)
            && (outcome == Returned(false) <==>
                  admin.Some? && (!admin.value.listSucceeds ||
                    (admin.value.deleteThrowsAt.Some? &&
                     admin.value.deleteThrowsAt.value < |MatchingTags(Listed(st.scriptTags), CustomScriptPattern)|)))
  {
  }

  /** Every call answers 200. */
  lemma AlwaysAcknowledged(st: StoreState, topic: string, shop: string, admin: Option<AdminApi>, db: DbBehaviour)
    ensures UninstallAction(st, topic, shop, admin, db).1 == 200
  {
  }

  /** Any topic but `APP_UNINSTALLED` changes nothing. */
  lemma OtherTopicNoChange(st: StoreState, topic: string, shop: string, admin: Option<AdminApi>, db: DbBehaviour)
    requires topic != "APP_UNINSTALLED"
    ensures UninstallAction(st, topic, shop, admin, db).0 == st
  {
  }

  /** On uninstall the shop's sessions are deleted whether or not a client is
      present, other sessions are kept, shop records are never touched, and
      without a client the tags stay as they are. */
  lemma UninstallCleansSessions(st: StoreState, shop: string, admin: Option<AdminApi>)
    ensures var r := UninstallAction(st, "APP_UNINSTALLED", shop, admin, DbAvailable).0;
            && (forall s :: s in r.sessions <==> s in st.sessions && s.shop != shop)
            && r.shops == st.shops && r.webhookShops == st.webhookShops
            && (admin.None? ==> r.scriptTags == st.scriptTags)
            && (admin.Some? ==> r.scriptTags == RemovedTags(st, CustomScriptPattern, admin.value).0.scriptTags)
  {
  }
}
