/** The admin index loader: fetch every page and every product through a
    cursor-paginated query (250 per request, at most a little over 5000
    items), then keep only each node's id and title. The server's answers
    are given as the sequence of pages it returns, in call order. */
module CatalogLoader {
  import opened Common

  /** A catalog node as the query returns it. */
  datatype Node = Node(id: string, title: string)

  /** One answer of the paginated query. */
  datatype ResponsePage = ResponsePage(nodes: seq<Node>, hasNextPage: bool, endCursor: Option<string>)

  /** The item the dashboard receives. */
  datatype CatalogItem = CatalogItem(id: string, title: string)

  const MaxItems := 5000

  /** The nodes of some answers, in order. */
  function Flatten(ps: seq<ResponsePage>): seq<Node>
  {
    if |ps| == 0 then [] else Flatten(ps[..|ps| - 1]) + ps[|ps| - 1].nodes
  }

  lemma FlattenSnoc(rs: seq<ResponsePage>, i: nat)
    requires i < |rs|
    ensures Flatten(rs[..i + 1]) == Flatten(rs[..i]) + rs[i].nodes
  {
    assert rs[..i + 1][..i] == rs[..i];
  }

  /** The loop ends after answer `i`: no next page, or more than 5000 items
      gathered so far. */
  predicate Stops(rs: seq<ResponsePage>, i: nat)
    requires i < |rs|
  {
    !rs[i].hasNextPage || |Flatten(rs[..i + 1])| > MaxItems
  }

  /** The first answer at or after `from` that ends the loop. */
  function FirstStopFrom(rs: seq<ResponsePage>, from: nat): (r: nat)
    requires exists i :: from <= i < |rs| && Stops(rs, i)
    ensures from <= r < |rs| && Stops(rs, r)
    ensures forall j :: from <= j < r ==> !Stops(rs, j)
    decreases |rs| - from
  {
    if Stops(rs, from) then from else FirstStopFrom(rs, from + 1)
  }

  function FirstStop(rs: seq<ResponsePage>): (r: nat)
    requires exists i :: 0 <= i < |rs| && Stops(rs, i)
    ensures r < |rs| && Stops(rs, r)
    ensures forall j :: 0 <= j < r ==> !Stops(rs, j)
  {
    FirstStopFrom(rs, 0)
  }

  /** The query call `failAt` (counting from 0), if any, throws or answers
      without `data`, so the loop rejects at that call. */
  predicate FailsBeforeStop(rs: seq<ResponsePage>, failAt: Option<nat>)
    requires exists i :: 0 <= i < |rs| && Stops(rs, i)
  {
    failAt.Some? && failAt.value <= FirstStop(rs)
  }

  /** `fetchAllItems(queryFn)`: the items gathered, or `None` when a call
      rejects, and the cursor passed on each call made. The answers must
      contain one that ends the loop; the source loops forever otherwise. */
  method FetchAllItems(rs: seq<ResponsePage>, failAt: Option<nat>) returns (items: Option<seq<Node>>, cursors: seq<Option<string>>)
    requires exists i :: 0 <= i < |rs| && Stops(rs, i)
    ensures var n := FirstStop(rs);
            var last := if FailsBeforeStop(rs, failAt) then failAt.value else n;
            && |cursors| == last + 1
            && cursors[0] == None
            && (forall j :: 1 <= j <= last ==> cursors[j] == rs[j - 1].endCursor)
            && (FailsBeforeStop(rs, failAt) ==> items.None?)
            && (!FailsBeforeStop(rs, failAt) ==> items == Some(Flatten(rs[..n + 1])))
            && (!FailsBeforeStop(rs, failAt) && n > 0 ==> |Flatten(rs[..n])| <= MaxItems)
  {
    ghost var n := FirstStop(rs);
    var hasNextPage := true;
    var endCursor: Option<string> := None;
    var allItems: seq<Node> := [];
    cursors := [];
    var i := 0;
    while hasNextPage
      invariant 0 <= i <= n + 1
      invariant hasNextPage <==> i <= n
      invariant failAt.Some? ==> failAt.value >= i
      invariant allItems == Flatten(rs[..i])
      invariant |cursors| == i
      invariant i > 0 ==> cursors[0] == None
      invariant forall j :: 1 <= j < i ==> cursors[j] == rs[j - 1].endCursor
      invariant endCursor == if i == 0 then None else rs[i - 1].endCursor
      decreases n + 1 - i
    {
      cursors := cursors + [endCursor];
      assert cursors[i] == endCursor;
      if failAt.Some? && failAt.value == i {
        assert FailsBeforeStop(rs, failAt);
        return None, cursors;
      }
      var page := rs[i];
      FlattenSnoc(rs, i);
      allItems := allItems + page.nodes;
      hasNextPage := page.hasNextPage;
      endCursor := page.endCursor;
      i := i + 1;
      if |allItems| > MaxItems {
        assert Stops(rs, i - 1);
        break;
      }
      assert i - 1 < n ==> !Stops(rs, i - 1);
      assert i - 1 == n ==> Stops(rs, i - 1);
    }
    assert i == n + 1;
    if n > 0 {
      assert !Stops(rs, n - 1);
    }
    items := Some(allItems);
  }

  /** The `after` clause of the query: present only for a truthy cursor. */
  function AfterParam(cursor: Option<string>): string
  {
    if Truthy(cursor) then ", after: \"" + cursor.value + "\"" else ""
  }

  /** The connection the query asks for. */
  function ConnectionQuery(kind: string, cursor: Option<string>): string
  {
    kind + "(first: 250" + AfterParam(cursor) + ")"
  }

  /** `nodes.map((node) => ({ id: node.id, title: node.title }))`. */
  function Project(nodes: seq<Node>): (r: seq<CatalogItem>)
    ensures |r| == |nodes|
    ensures forall k :: 0 <= k < |r| ==> r[k].id == nodes[k].id && r[k].title == nodes[k].title
  {
    if |nodes| == 0 then [] else [CatalogItem(nodes[0].id, nodes[0].title)] + Project(nodes[1..])
  }

  /** The catalog the loader hands to the dashboard. */
  datatype Catalog = Catalog(pages: seq<CatalogItem>, products: seq<CatalogItem>)

  /** The loader's catalog: pages, then products, each fetched to its stop
      and projected; the loader rejects (`None`) when either fetch does. */
  method Loader(pageAnswers: seq<ResponsePage>, pageFailAt: Option<nat>,
                productAnswers: seq<ResponsePage>, productFailAt: Option<nat>)
    returns (catalog: Option<Catalog>)
    requires exists i :: 0 <= i < |pageAnswers| && Stops(pageAnswers, i)
    requires exists i :: 0 <= i < |productAnswers| && Stops(productAnswers, i)
    ensures catalog.None? <==> FailsBeforeStop(pageAnswers, pageFailAt) || FailsBeforeStop(productAnswers, productFailAt)
    ensures catalog.Some? ==>
              && catalog.value.pages == Project(Flatten(pageAnswers[..FirstStop(pageAnswers) + 1]))
              && catalog.value.products == Project(Flatten(productAnswers[..FirstStop(productAnswers) + 1]))
  {
    var allPages, _ := FetchAllItems(pageAnswers, pageFailAt);
    var allProducts, _ := FetchAllItems(productAnswers, productFailAt);
    if allPages.None? || allProducts.None? {
      return None;
    }
    catalog := Some(Catalog(Project(allPages.value), Project(allProducts.value)));
  }

  // ---- Properties ----

  /** Flattening is concatenation: the nodes of a prefix followed by the
      nodes of the rest. */
  lemma {:induction false} FlattenAppend(a: seq<ResponsePage>, b: seq<ResponsePage>)
    ensures Flatten(a + b) == Flatten(a) + Flatten(b)
    decreases |b|
  {
    if |b| == 0 {
      assert a + b == a;
    } else {
      var b', last := b[..|b| - 1], b[|b| - 1];
      var ab := a + b;
      assert ab[..|ab| - 1] == a + b' && ab[|ab| - 1] == last;
      FlattenAppend(a, b');
      assert Flatten(ab) == (Flatten(a) + Flatten(b')) + last.nodes;
      assert (Flatten(a) + Flatten(b')) + last.nodes == Flatten(a) + (Flatten(b') + last.nodes);
    }
  }

  /** The loop stops at the first answer without a next page when the cap is
      never exceeded before it; every answer up to it is fetched. */
  lemma StopsAtLastPage(rs: seq<ResponsePage>, n: nat)
    requires n < |rs| && !rs[n].hasNextPage
    requires forall j :: 0 <= j < n ==> rs[j].hasNextPage
    requires |Flatten(rs[..n])| <= MaxItems
    ensures exists i :: 0 <= i < |rs| && Stops(rs, i)
    ensures FirstStop(rs) == n
  {
    assert Stops(rs, n);
    forall j | 0 <= j < n ensures !Stops(rs, j) {
      FlattenAppend(rs[..j + 1], rs[j + 1..n]);
      assert rs[..j + 1] + rs[j + 1..n] == rs[..n];
    }
  }

  /** The items gathered exceed 5000 by less than one answer's worth. */
  lemma CapOvershoot(rs: seq<ResponsePage>)
    requires exists i :: 0 <= i < |rs| && Stops(rs, i)
    ensures var n := FirstStop(rs);
            |Flatten(rs[..n + 1])| <= MaxItems + |rs[n].nodes|
  {
    var n := FirstStop(rs);
    FlattenSnoc(rs, n);
    if n > 0 {
      assert !Stops(rs, n - 1);
    }
  }

  /** The `after` clause appears exactly for a truthy cursor, quoting it;
      every query asks for 250 items. */
  lemma QueryShape(kind: string, cursor: Option<string>)
    ensures AfterParam(cursor) == "" <==> !Truthy(cursor)
    ensures Truthy(cursor) ==> AfterParam(cursor) == ", after: \"" + cursor.value + "\""
    ensures var q := ConnectionQuery(kind, cursor);
            |q| >= |kind| + 11 && q[..|kind| + 11] == kind + "(first: 250"
  {
    var q := ConnectionQuery(kind, cursor);
    assert q == (kind + "(first: 250") + (AfterParam(cursor) + ")");
  }
}
