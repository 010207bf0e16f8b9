/** The merchant settings dashboard's event handlers: four state cells (the
    selected page ids, the selected product ids and the two "all selected"
    flags), a mount effect that recomputes the flags, the save guard with its
    toast, and the option lists built from the catalog. Rendering is not
    modelled. */
module Dashboard {
  import opened Common
  import opened CatalogLoader

  /** The four state cells. */
  datatype Selection = Selection(
    selectedPages: seq<string>,
    selectedProducts: seq<string>,
    allPagesSelected: bool,
    allProductsSelected: bool)

  /** `items.map((item) => item.id)`. */
  function Ids(items: seq<CatalogItem>): (r: seq<string>)
    ensures |r| == |items|
    ensures forall k :: 0 <= k < |r| ==> r[k] == items[k].id
  {
    if |items| == 0 then [] else [items[0].id] + Ids(items[1..])
  }

  /** `selected.filter(Boolean)`: the non-empty ids, in order. */
  function NonEmptyEntries(selected: seq<string>): (r: seq<string>)
    ensures |r| <= |selected|
    ensures forall x :: x in r <==> x in selected && x != ""
    ensures multiset(r) == multiset(selected)["" := 0]
    ensures |r| == |selected| - multiset(selected)[""]
  {
    if |selected| == 0 then []
    else
      assert selected == [selected[0]] + selected[1..];
      if selected[0] == "" then NonEmptyEntries(selected[1..])
      else [selected[0]] + NonEmptyEntries(selected[1..])
  }

  /** The filter keeps the order of the ids: it works piece by piece. */
  lemma {:induction false} NonEmptyEntriesAppend(a: seq<string>, b: seq<string>)
    ensures NonEmptyEntries(a + b) == NonEmptyEntries(a) + NonEmptyEntries(b)
    decreases |a|
  {
    if |a| > 0 {
      var ab := a + b;
      assert ab[0] == a[0] && ab[1..] == a[1..] + b;
      NonEmptyEntriesAppend(a[1..], b);
      var x, y := NonEmptyEntries(a[1..]), NonEmptyEntries(b);
      if a[0] != "" {
        assert NonEmptyEntries(ab) == [a[0]] + (x + y);
        assert [a[0]] + (x + y) == ([a[0]] + x) + y;
      }
    } else {
      assert a + b == b;
    }
  }

  /** The state on first render: the initial lists, or empty ones when they
      are not given; both flags off. */
  function Initial(initialPages: Option<seq<string>>, initialProducts: Option<seq<string>>): Selection
  {
    Selection(
      if initialPages.Some? then initialPages.value else [],
      if initialProducts.Some? then initialProducts.value else [],
      false, false)
  }

  /** The mount effect: each flag is on when its list is as long as the
      catalog and not empty. */
  function Mounted(s: Selection, pages: seq<CatalogItem>, products: seq<CatalogItem>): Selection
  {
    s.(allPagesSelected := |s.selectedPages| == |pages| && |s.selectedPages| > 0,
       allProductsSelected := |s.selectedProducts| == |products| && |s.selectedProducts| > 0)
  }

  /** `handleAllPagesChange`. */
  function ToggleAllPages(s: Selection, pages: seq<CatalogItem>): Selection
  {
    var on := !s.allPagesSelected;
    s.(allPagesSelected := on, selectedPages := if on then Ids(pages) else [])
  }

  /** `handleAllProductsChange`. */
  function ToggleAllProducts(s: Selection, products: seq<CatalogItem>): Selection
  {
    var on := !s.allProductsSelected;
    s.(allProductsSelected := on, selectedProducts := if on then Ids(products) else [])
  }

  /** `handlePagesChange(selected)`. */
  function ChoosePages(s: Selection, selected: seq<string>, pages: seq<CatalogItem>): Selection
  {
    s.(selectedPages := selected, allPagesSelected := |selected| == |pages| && |selected| > 0)
  }

  /** `handleProductsChange(selected)`. */
  function ChooseProducts(s: Selection, selected: seq<string>, products: seq<CatalogItem>): Selection
  {
    var kept := NonEmptyEntries(selected);
    s.(selectedProducts := kept, allProductsSelected := |kept| == |products|)
  }

  /** The form data a save submits. */
  datatype Submission = Submission(actionType: string, selectedPages: seq<string>, selectedProducts: seq<string>)

  const SaveActionType := "saveSelecedPagesAndProducts"
  const NothingToSave := "No pages or products available to save."
  const SettingsSaved := "Settings saved successfully!"

  /** `handleSaveSettings`: what is submitted, and the toast shown. */
  function SaveOutcome(s: Selection, pages: seq<CatalogItem>, products: seq<CatalogItem>): (Option<Submission>, string)
  {
    if |pages| == 0 && |products| == 0 then (None, NothingToSave)
    else (Some(Submission(SaveActionType, s.selectedPages, s.selectedProducts)), SettingsSaved)
  }

  /** An entry of an option list; `text` is its label. */
  datatype ListOption = ListOption(value: string, text: string)

  /** `pageOptions` / `productOptions`. */
  function Options(items: seq<CatalogItem>): (r: seq<ListOption>)
    ensures |r| == |items|
    ensures forall k :: 0 <= k < |r| ==> r[k].value == items[k].id && r[k].text == items[k].title
  {
    if |items| == 0 then [] else [ListOption(items[0].id, items[0].title)] + Options(items[1..])
  }

  /** The values of an option list, as the option list reports a full
      selection. */
  function OptionValues(options: seq<ListOption>): (r: seq<string>)
    ensures |r| == |options|
    ensures forall k :: 0 <= k < |r| ==> r[k] == options[k].value
  {
    if |options| == 0 then [] else [options[0].value] + OptionValues(options[1..])
  }

  /** The component's state cells, toast and submitted forms. */
  class DashboardState {
    const pages: seq<CatalogItem>
    const products: seq<CatalogItem>
    var selectedPages: seq<string>
    var selectedProducts: seq<string>
    var allPagesSelected: bool
    var allProductsSelected: bool
    var toastActive: bool
    var toastMessage: string
    var submissions: seq<Submission>

    function Current(): Selection
      reads this
    {
      Selection(selectedPages, selectedProducts, allPagesSelected, allProductsSelected)
    }

    constructor (pages: seq<CatalogItem>, products: seq<CatalogItem>,
                 initialSelectedPages: Option<seq<string>>, initialSelectedProducts: Option<seq<string>>)
      ensures this.pages == pages && this.products == products
      ensures Current() == Initial(initialSelectedPages, initialSelectedProducts)
      ensures !toastActive && toastMessage == "" && submissions == []
    {
      this.pages := pages;
      this.products := products;
      selectedPages := if initialSelectedPages.Some? then initialSelectedPages.value else [];
      selectedProducts := if initialSelectedProducts.Some? then initialSelectedProducts.value else [];
      allPagesSelected := false;
      allProductsSelected := false;
      toastActive := false;
      toastMessage := "";
      submissions := [];
    }

    /** The mount effect. */
    method Mount()
      modifies this
      ensures Current() == Mounted(old(Current()), pages, products)
      ensures toastActive == old(toastActive) && toastMessage == old(toastMessage) && submissions == old(submissions)
    {
      allPagesSelected := |selectedPages| == |pages| && |selectedPages| > 0;
      allProductsSelected := |selectedProducts| == |products| && |selectedProducts| > 0;
    }

    method HandleAllPagesChange()
      modifies this
      ensures Current() == ToggleAllPages(old(Current()), pages)
      ensures toastActive == old(toastActive) && toastMessage == old(toastMessage) && submissions == old(submissions)
    {
      var newValue := !allPagesSelected;
      allPagesSelected := newValue;
      if newValue {
        selectedPages := Ids(pages);
      } else {
        selectedPages := [];
      }
    }

    method HandleAllProductsChange()
      modifies this
      ensures Current() == ToggleAllProducts(old(Current()), products)
      ensures toastActive == old(toastActive) && toastMessage == old(toastMessage) && submissions == old(submissions)
    {
      var newValue := !allProductsSelected;
      allProductsSelected := newValue;
      if newValue {
        selectedProducts := Ids(products);
      } else {
        selectedProducts := [];
      }
    }

    method HandlePagesChange(selected: seq<string>)
      modifies this
      ensures Current() == ChoosePages(old(Current()), selected, pages)
      ensures toastActive == old(toastActive) && toastMessage == old(toastMessage) && submissions == old(submissions)
    {
      selectedPages := selected;
      allPagesSelected := |selected| == |pages| && |selected| > 0;
    }

    method HandleProductsChange(selected: seq<string>)
      modifies this
      ensures Current() == ChooseProducts(old(Current()), selected, products)
      ensures toastActive == old(toastActive) && toastMessage == old(toastMessage) && submissions == old(submissions)
    {
      selectedProducts := NonEmptyEntries(selected);
      allProductsSelected := |NonEmptyEntries(selected)| == |products|;
    }

    /** `toggleToast(message)`. */
    method ToggleToast(message: string)
      modifies this
      ensures toastActive && toastMessage == message
      ensures Current() == old(Current()) && submissions == old(submissions)
    {
      toastMessage := message;
      toastActive := true;
    }

    method HandleSaveSettings()
      modifies this
      ensures var (submitted, message) := SaveOutcome(old(Current()), pages, products);
              && submissions == old(submissions) + (if submitted.Some? then [submitted.value] else [])
              && toastActive && toastMessage == message
      ensures Current() == old(Current())
    {
      if |pages| == 0 && |products| == 0 {
        ToggleToast(NothingToSave);
        return;
      }
      submissions := submissions + [Submission(SaveActionType, selectedPages, selectedProducts)];
      ToggleToast(SettingsSaved);
    }
  }

  /** `n` consecutive "All Pages" toggles. */
  function TogglePagesTimes(s: Selection, pages: seq<CatalogItem>, n: nat): Selection
  {
    if n == 0 then s else ToggleAllPages(TogglePagesTimes(s, pages, n - 1), pages)
  }

  // ---- Properties ----

  /** The lists start from the initial values, or empty; the mount effect
      turns a flag on exactly when its list is as long as the catalog and
      not empty. */
  lemma InitialThenMounted(initialPages: Option<seq<string>>, initialProducts: Option<seq<string>>,
                           pages: seq<CatalogItem>, products: seq<CatalogItem>)
    ensures var s := Initial(initialPages, initialProducts);
            && (initialPages.None? ==> s.selectedPages == []) && (initialPages.Some? ==> s.selectedPages == initialPages.value)
            && (initialProducts.None? ==> s.selectedProducts == []) && (initialProducts.Some? ==> s.selectedProducts == initialProducts.value)
            && !s.allPagesSelected && !s.allProductsSelected
    ensures var m := Mounted(Initial(initialPages, initialProducts), pages, products);
            && (m.allPagesSelected <==> |m.selectedPages| == |pages| && pages != [])
            && (m.allProductsSelected <==> |m.selectedProducts| == |products| && products != [])
            && m.selectedPages == Initial(initialPages, initialProducts).selectedPages
            && m.selectedProducts == Initial(initialPages, initialProducts).selectedProducts
  {
  }

  /** Toggling "All Pages" on selects every page id in catalog order; off
      clears the list; the product cells are untouched. */
  lemma ToggleAllPagesEffect(s: Selection, pages: seq<CatalogItem>)
    ensures var r := ToggleAllPages(s, pages);
            && r.allPagesSelected == !s.allPagesSelected
            && (r.allPagesSelected ==>
                  (|r.selectedPages| == |pages| &&
                   forall k :: 0 <= k < |pages| ==> r.selectedPages[k] == pages[k].id))
            && (!r.allPagesSelected ==> r.selectedPages == [])
            && r.selectedProducts == s.selectedProducts && r.allProductsSelected == s.allProductsSelected
  {
  }

  /** The same for "All Products". */
  lemma ToggleAllProductsEffect(s: Selection, products: seq<CatalogItem>)
    ensures var r := ToggleAllProducts(s, products);
            && r.allProductsSelected == !s.allProductsSelected
            && (r.allProductsSelected ==>
                  (|r.selectedProducts| == |products| &&
                   forall k :: 0 <= k < |products| ==> r.selectedProducts[k] == products[k].id))
            && (!r.allProductsSelected ==> r.selectedProducts == [])
            && r.selectedPages == s.selectedPages && r.allPagesSelected == s.allPagesSelected
  {
  }

  /** After `n > 0` toggles the flag is the initial one flipped `n` times and
      the list is full or empty accordingly; an even number restores the
      flag. */
  lemma {:induction false} TogglePagesParity(s: Selection, pages: seq<CatalogItem>, n: nat)
    ensures var r := TogglePagesTimes(s, pages, n);
            && r.allPagesSelected == (if n % 2 == 0 then s.allPagesSelected else !s.allPagesSelected)
            && (n > 0 ==> r.selectedPages == if r.allPagesSelected then Ids(pages) else [])
            && r.selectedProducts == s.selectedProducts && r.allProductsSelected == s.allProductsSelected
  {
    if n > 0 {
      TogglePagesParity(s, pages, n - 1);
    }
  }

  /** Choosing pages stores the selection verbatim; the flag is on exactly
      when every page is chosen and there is at least one. */
  lemma ChoosePagesEffect(s: Selection, selected: seq<string>, pages: seq<CatalogItem>)
    ensures var r := ChoosePages(s, selected, pages);
            && r.selectedPages == selected
            && (r.allPagesSelected <==> |selected| == |pages| && |selected| > 0)
            && r.selectedProducts == s.selectedProducts && r.allProductsSelected == s.allProductsSelected
  {
  }

  /** Choosing products drops empty ids, keeps the rest, and turns the flag
      on exactly when the kept ids are as many as the products, without the
      non-empty condition the page handler has. */
  lemma ChooseProductsEffect(s: Selection, selected: seq<string>, products: seq<CatalogItem>)
    ensures var r := ChooseProducts(s, selected, products);
            && (forall x :: x in r.selectedProducts <==> x in selected && x != "")
            && ("" !in selected ==> r.selectedProducts == selected)
            && (r.allProductsSelected <==> |NonEmptyEntries(selected)| == |products|)
            && (r.allProductsSelected <==> |selected| - multiset(selected)[""] == |products|)
            && r.selectedPages == s.selectedPages && r.allPagesSelected == s.allPagesSelected
  {
    if "" !in selected {
      NonEmptyUnchanged(selected);
    }
  }

  lemma {:induction false} NonEmptyUnchanged(selected: seq<string>)
    requires "" !in selected
    ensures NonEmptyEntries(selected) == selected
  {
    if |selected| > 0 {
      assert selected[0] in selected;
      assert forall x :: x in selected[1..] ==> x in selected;
      NonEmptyUnchanged(selected[1..]);
      assert selected == [selected[0]] + selected[1..];
    }
  }

  /** With an empty catalog and an empty choice, the product flag turns on
      while the page flag stays off. */
  lemma FlagAsymmetry(s: Selection)
    ensures ChooseProducts(s, [], []).allProductsSelected
    ensures !ChoosePages(s, [], []).allPagesSelected
  {
  }

  /** Saving with both catalogs empty submits nothing and warns; otherwise
      it submits exactly the current lists and reports success. */
  lemma SaveEffect(s: Selection, pages: seq<CatalogItem>, products: seq<CatalogItem>)
    ensures |pages| == 0 && |products| == 0 ==>
              SaveOutcome(s, pages, products) == (None, "No pages or products available to save.")
    ensures !(|pages| == 0 && |products| == 0) ==>
              SaveOutcome(s, pages, products) ==
                (Some(Submission("saveSelecedPagesAndProducts", s.selectedPages, s.selectedProducts)), "Settings saved successfully!")
  {
  }

  /** The option values are the catalog ids in order, so choosing every
      option from a state with the flag off is the same as the "All Pages"
      toggle on a non-empty catalog. */
  lemma SelectEveryOption(s: Selection, pages: seq<CatalogItem>)
    requires |pages| > 0 && !s.allPagesSelected
    ensures OptionValues(Options(pages)) == Ids(pages)
    ensures ChoosePages(s, OptionValues(Options(pages)), pages) == ToggleAllPages(s, pages)
  {
    assert OptionValues(Options(pages)) == Ids(pages);
  }
}
