/** The page the loader renders and the style state its search updates in place: the elements a
    `[data-search*="…"]` selector can reach, in document order, the inline style of each, and the
    search-results panel; and `StreamingStandardsDataLoader`, whose methods change them. */
module Loader {
  import opened Strings
  import opened Sequences
  import opened Standards

  /** An element carrying a `data-search` attribute: a category's header (the category name,
      lower-cased) or a technology item (`SearchKey`). Only technology items are `.tech-item`s. */
  datatype Element = CategoryHeader(key: string) | TechItem(key: string)

  /** The inline style of an element: none set yet; opacity 1 with no colours; opacity 0.3 with
      no colours; or opacity 1 with the highlight background and white text. */
  datatype Style = Unstyled | Shown | Dimmed | Highlighted

  /** What `#searchResults` holds: nothing, "No results found", or one line per result. */
  datatype Panel = Blank | NoResults | Listing(results: seq<SearchResult>)

  // ---------------------------------------------------------------------------------------
  // Rendering

  /** The items of the first `n` technologies of a category. */
  function TechElements(techs: seq<Technology>, n: nat): (r: seq<Element>)
    requires n <= |techs|
    ensures |r| == n
  {
    if n == 0 then [] else TechElements(techs, n - 1) + [TechItem(SearchKey(techs[n - 1]))]
  }

  /** `createCategoryElement`: the header, then one item per technology. The header's key is
      taken to be the lower-cased name exactly, as the HTML parser reads it for a name holding
      no `"` and no character reference. */
  function CategoryElements(category: Category): seq<Element> {
    [CategoryHeader(Lower(category.name))] + TechElements(category.technologies, |category.technologies|)
  }

  /** The elements of the first `n` categories of a layer (`createLayerElement`). */
  function LayerElements(layer: Layer, n: nat): seq<Element>
    requires n <= |layer.categories|
  {
    if n == 0 then [] else LayerElements(layer, n - 1) + CategoryElements(layer.categories[n - 1])
  }

  /** The elements of the first `n` layers (`renderLayers`). */
  function DocumentElements(doc: Document, n: nat): seq<Element>
    requires n <= |doc.layers|
  {
    if n == 0 then [] else DocumentElements(doc, n - 1) + LayerElements(doc.layers[n - 1], |doc.layers[n - 1].categories|)
  }

  function Rendered(doc: Document): seq<Element> {
    DocumentElements(doc, |doc.layers|)
  }

  /** The `data-search` keys of the technology items, in order. */
  function ItemKeys(els: seq<Element>): (r: seq<string>)
    ensures |r| <= |els|
  {
    if |els| == 0 then []
    else ItemKeys(els[..|els| - 1]) + (if els[|els| - 1].TechItem? then [els[|els| - 1].key] else [])
  }

  /** The search keys of the technologies of some entries, in order. */
  function EntryKeys(entries: seq<SearchResult>): (r: seq<string>)
    ensures |r| == |entries|
  {
    if |entries| == 0 then [] else EntryKeys(entries[..|entries| - 1]) + [SearchKey(entries[|entries| - 1].tech)]
  }

  lemma ItemKeysSnoc(a: seq<Element>, e: Element)
    ensures ItemKeys(a + [e]) == ItemKeys(a) + (if e.TechItem? then [e.key] else [])
  {
    assert (a + [e])[..|a|] == a;
  }

  lemma EntryKeysSnoc(a: seq<SearchResult>, e: SearchResult)
    ensures EntryKeys(a + [e]) == EntryKeys(a) + [SearchKey(e.tech)]
  {
    assert (a + [e])[..|a|] == a;
  }

  lemma {:induction false} ItemKeysAppend(a: seq<Element>, b: seq<Element>)
    ensures ItemKeys(a + b) == ItemKeys(a) + ItemKeys(b)
    decreases |b|
  {
    if |b| > 0 {
      ItemKeysAppend(a, b[..|b| - 1]);
      assert (a + b)[..|a + b| - 1] == a + b[..|b| - 1];
      AppendAssoc(ItemKeys(a), ItemKeys(b[..|b| - 1]), if b[|b| - 1].TechItem? then [b[|b| - 1].key] else []);
    } else {
      assert a + b == a;
    }
  }

  lemma {:induction false} EntryKeysAppend(a: seq<SearchResult>, b: seq<SearchResult>)
    ensures EntryKeys(a + b) == EntryKeys(a) + EntryKeys(b)
    decreases |b|
  {
    if |b| > 0 {
      EntryKeysAppend(a, b[..|b| - 1]);
      assert (a + b)[..|a + b| - 1] == a + b[..|b| - 1];
      AppendAssoc(EntryKeys(a), EntryKeys(b[..|b| - 1]), [SearchKey(b[|b| - 1].tech)]);
    } else {
      assert a + b == a;
    }
  }

  lemma {:induction false} TechElementsKeys(layer: Layer, category: Category, n: nat)
    requires n <= |category.technologies|
    ensures ItemKeys(TechElements(category.technologies, n)) == EntryKeys(TechEntries(layer, category, n))
  {
    if n > 0 {
      TechElementsKeys(layer, category, n - 1);
      var techs := category.technologies;
      assert TechElements(techs, n) == TechElements(techs, n - 1) + [TechItem(SearchKey(techs[n - 1]))];
      assert TechEntries(layer, category, n)
          == TechEntries(layer, category, n - 1) + [SearchResult(techs[n - 1], category, layer)];
      ItemKeysSnoc(TechElements(techs, n - 1), TechItem(SearchKey(techs[n - 1])));
      EntryKeysSnoc(TechEntries(layer, category, n - 1), SearchResult(techs[n - 1], category, layer));
    }
  }

  lemma CategoryElementsKeys(layer: Layer, category: Category)
    ensures ItemKeys(CategoryElements(category)) == EntryKeys(CategoryEntries(category, layer))
  {
    var header := [CategoryHeader(Lower(category.name))];
    ItemKeysAppend(header, TechElements(category.technologies, |category.technologies|));
    assert ItemKeys(header) == [];
    TechElementsKeys(layer, category, |category.technologies|);
  }

  lemma {:induction false} LayerElementsKeys(layer: Layer, n: nat)
    requires n <= |layer.categories|
    ensures ItemKeys(LayerElements(layer, n)) == EntryKeys(LayerEntries(layer, n))
  {
    if n > 0 {
      LayerElementsKeys(layer, n - 1);
      ItemKeysAppend(LayerElements(layer, n - 1), CategoryElements(layer.categories[n - 1]));
      CategoryElementsKeys(layer, layer.categories[n - 1]);
      EntryKeysAppend(LayerEntries(layer, n - 1), CategoryEntries(layer.categories[n - 1], layer));
    }
  }

  lemma {:induction false} DocumentElementsKeys(doc: Document, n: nat)
    requires n <= |doc.layers|
    ensures ItemKeys(DocumentElements(doc, n)) == EntryKeys(DocumentEntries(doc, n))
  {
    if n > 0 {
      var layer := doc.layers[n - 1];
      var els, entries := LayerElements(layer, |layer.categories|), LayerEntries(layer, |layer.categories|);
      assert DocumentElements(doc, n) == DocumentElements(doc, n - 1) + els;
      assert DocumentEntries(doc, n) == DocumentEntries(doc, n - 1) + entries;
      DocumentElementsKeys(doc, n - 1);
      LayerElementsKeys(layer, |layer.categories|);
      ItemKeysAppend(DocumentElements(doc, n - 1), els);
      EntryKeysAppend(DocumentEntries(doc, n - 1), entries);
      assert ItemKeys(DocumentElements(doc, n)) == ItemKeys(DocumentElements(doc, n - 1)) + ItemKeys(els);
      assert EntryKeys(DocumentEntries(doc, n)) == EntryKeys(DocumentEntries(doc, n - 1)) + EntryKeys(entries);
    } else {
      assert DocumentElements(doc, n) == [] && DocumentEntries(doc, n) == [];
    }
  }

  /** The rendered technology items are the document's technologies in traversal order, one
      item each carrying that technology's search key, so there are as many as
      `technologies.length` summed over every category of every layer. */
  lemma RenderedItems(doc: Document)
    ensures ItemKeys(Rendered(doc)) == EntryKeys(Entries(doc))
    ensures |ItemKeys(Rendered(doc))| == TechnologyCount(doc, |doc.layers|)
  {
    DocumentElementsKeys(doc, |doc.layers|);
    EntriesCount(doc, |doc.layers|);
  }

  // ---------------------------------------------------------------------------------------
  // Styles

  /** Every `.tech-item` gets `style`; every other element keeps its own. */
  function SetItems(els: seq<Element>, st: seq<Style>, style: Style): (r: seq<Style>)
    requires |els| == |st|
  {
    seq(|st|, i requires 0 <= i < |st| => if els[i].TechItem? then style else st[i])
  }

  /** `[data-search*="v"]` selects `e`: its key contains `v`. An empty `v` selects nothing. */
  predicate Selects(e: Element, v: string) {
    v != "" && Contains(e.key, v)
  }

  /** Every element `[data-search*="v"]` selects gets the highlight; the others keep their style. */
  function Light(els: seq<Element>, st: seq<Style>, v: string): (r: seq<Style>)
    requires |els| == |st|
    ensures |r| == |st|
  {
    seq(|st|, i requires 0 <= i < |st| => if Selects(els[i], v) then Highlighted else st[i])
  }

  /** `Light` for the lower-cased name of each result in turn. */
  function LightResults(els: seq<Element>, st: seq<Style>, results: seq<SearchResult>): (r: seq<Style>)
    requires |els| == |st|
    ensures |r| == |st|
  {
    if |results| == 0 then st
    else Light(els, LightResults(els, st, results[..|results| - 1]), Lower(results[|results| - 1].tech.name))
  }

  /** Some result's lower-cased name selects `e`. */
  predicate SelectedByResults(e: Element, results: seq<SearchResult>) {
    exists k :: 0 <= k < |results| && Selects(e, Lower(results[k].tech.name))
  }

  /** After the highlight pass an element is highlighted when some result's name selects it, and
      keeps its style otherwise. */
  lemma {:induction false} LightResultsAt(els: seq<Element>, st: seq<Style>, results: seq<SearchResult>, i: nat)
    requires |els| == |st| && i < |st|
    ensures LightResults(els, st, results)[i] == if SelectedByResults(els[i], results) then Highlighted else st[i]
    decreases |results|
  {
    if |results| > 0 {
      var init := results[..|results| - 1];
      LightResultsAt(els, st, init, i);
      if SelectedByResults(els[i], init) {
        var k :| 0 <= k < |init| && Selects(els[i], Lower(init[k].tech.name));
        assert results[k] == init[k];
      }
      if SelectedByResults(els[i], results) && !Selects(els[i], Lower(results[|results| - 1].tech.name)) {
        var k :| 0 <= k < |results| && Selects(els[i], Lower(results[k].tech.name));
        assert init[k] == results[k];
      }
    }
  }

  /** `hideAllItems` and `showAllItems` set every technology item to one style and leave every
      other element as it was; doing it twice is doing it once. */
  lemma SetItemsUniform(els: seq<Element>, st: seq<Style>, style: Style)
    requires |els| == |st|
    ensures |SetItems(els, st, style)| == |st|
    ensures forall i :: 0 <= i < |st| && els[i].TechItem? ==> SetItems(els, st, style)[i] == style
    ensures forall i :: 0 <= i < |st| && els[i].CategoryHeader? ==> SetItems(els, st, style)[i] == st[i]
    ensures SetItems(els, SetItems(els, st, style), style) == SetItems(els, st, style)
  {
  }

  /** After `hideAllItems` and the highlight pass, a technology item is highlighted exactly when
      its un-lower-cased key contains the lower-cased name of some result, and dimmed otherwise. */
  lemma HighlightedItems(els: seq<Element>, st: seq<Style>, results: seq<SearchResult>, i: nat)
    requires |els| == |st| && i < |st| && els[i].TechItem?
    ensures LightResults(els, SetItems(els, st, Dimmed), results)[i]
         == if SelectedByResults(els[i], results) then Highlighted else Dimmed
  {
    LightResultsAt(els, SetItems(els, st, Dimmed), results, i);
  }

  /** Highlighting the same results again changes nothing. */
  lemma HighlightIdempotent(els: seq<Element>, st: seq<Style>, results: seq<SearchResult>)
    requires |els| == |st|
    ensures var once := LightResults(els, SetItems(els, st, Dimmed), results);
      LightResults(els, SetItems(els, once, Dimmed), results) == once
  {
    var once := LightResults(els, SetItems(els, st, Dimmed), results);
    var twice := LightResults(els, SetItems(els, once, Dimmed), results);
    forall i | 0 <= i < |st|
      ensures twice[i] == once[i]
    {
      LightResultsAt(els, SetItems(els, st, Dimmed), results, i);
      LightResultsAt(els, SetItems(els, once, Dimmed), results, i);
    }
  }

  /** Nothing the loader does to styles ever clears a category header's highlight: `hideAllItems`
      and `showAllItems` reach only technology items, and a highlight pass only adds highlights. */
  lemma HeaderHighlightSticks(els: seq<Element>, st: seq<Style>, results: seq<SearchResult>, style: Style, i: nat)
    requires |els| == |st| && i < |st| && els[i].CategoryHeader? && st[i] == Highlighted
    ensures SetItems(els, st, style)[i] == Highlighted
    ensures LightResults(els, st, results)[i] == Highlighted
  {
    LightResultsAt(els, st, results, i);
  }

  /** A result whose name is in its category's name highlights that category's header, and a
      search key written in capitals is not selected by the lower-cased name. */
  lemma SelectorExamples()
    ensures Selects(CategoryHeader("cmaf packaging"), "cmaf")
    ensures !Selects(TechItem("HLS"), "hls")
    ensures !Selects(TechItem("hls"), "")
  {
    assert "cmaf packaging"[..4] == "cmaf";
    var key := "HLS";
    assert key[..3] != "hls" by { assert key[..3][0] == 'H'; }
    assert key[1..] == "LS" && key[1..][1..] == "S" && key[1..][1..][1..] == "";
    assert !Contains("", "hls");
    assert !Contains("S", "hls");
    assert !Contains("LS", "hls");
  }

  // ---------------------------------------------------------------------------------------
  // The search input

  /** The input handler searches only once the lower-cased query has a `length` of two, counted
      in UTF-16 code units. */
  predicate RunsSearch(query: string) {
    Utf16Length(query) >= 2
  }

  /** One character outside the Basic Multilingual Plane already runs the search; one ASCII
      letter does not, two do. */
  lemma RunsSearchExamples()
    ensures RunsSearch("\U{1F600}")
    ensures !RunsSearch("h") && RunsSearch("hl")
  {
    assert "\U{1F600}"[..0] == "";
    assert "hl"[..1] == "h" && "h"[..0] == "";
  }

  class StreamingStandardsDataLoader {
    /** `this.data`, as `loadData` left it. */
    const data: Document
    /** The elements `renderLayers` put on the page, in document order. */
    var elements: seq<Element>
    /** The inline style of each element of `elements`. */
    var styles: array<Style>
    /** The contents of `#searchResults`. */
    var panel: Panel

    ghost predicate Valid()
      reads this
    {
      styles.Length == |elements|
    }

    constructor (data: Document)
      ensures this.data == data && elements == [] && styles.Length == 0 && panel == Blank
      ensures Valid()
    {
      this.data := data;
      elements := [];
      styles := new Style[0];
      panel := Blank;
    }

    /** `renderLayers`, on a page `renderDiagram` has just cleared: every element, unstyled. */
    method RenderLayers()
      modifies this`elements, this`styles
      ensures Valid() && fresh(styles)
      ensures elements == Rendered(data)
      ensures forall i :: 0 <= i < styles.Length ==> styles[i] == Unstyled
    {
      var page: seq<Element> := [];
      var l := 0;
      while l < |data.layers|
        invariant 0 <= l <= |data.layers|
        invariant page == DocumentElements(data, l)
      {
        var layerElements := CreateLayerElement(data.layers[l]);
        page := page + layerElements;
        l := l + 1;
      }
      elements := page;
      styles := new Style[|page|](_ => Unstyled);
    }

    /** `createLayerElement`: the elements of each category in turn. */
    method CreateLayerElement(layer: Layer) returns (els: seq<Element>)
      ensures els == LayerElements(layer, |layer.categories|)
    {
      els := [];
      var c := 0;
      while c < |layer.categories|
        invariant 0 <= c <= |layer.categories|
        invariant els == LayerElements(layer, c)
      {
        var categoryElements := CreateCategoryElement(layer.categories[c]);
        els := els + categoryElements;
        c := c + 1;
      }
    }

    /** `createCategoryElement`: the header, then an item per technology. */
    method CreateCategoryElement(category: Category) returns (els: seq<Element>)
      ensures els == CategoryElements(category)
    {
      var items: seq<Element> := [];
      var t := 0;
      while t < |category.technologies|
        invariant 0 <= t <= |category.technologies|
        invariant items == TechElements(category.technologies, t)
      {
        items := items + [TechItem(SearchKey(category.technologies[t]))];
        t := t + 1;
      }
      els := [CategoryHeader(Lower(category.name))] + items;
    }

    /** `searchTechnologies(query)`: the matching technologies, layer by layer. */
    method SearchTechnologies(query: string) returns (results: seq<SearchResult>)
      ensures results == Search(data, query)
    {
      results := [];
      var l := 0;
      while l < |data.layers|
        invariant 0 <= l <= |data.layers|
        invariant results == Select(DocumentEntries(data, l), query)
      {
        var layer := data.layers[l];
        var hits := SearchLayer(layer, query);
        SelectAppend(DocumentEntries(data, l), LayerEntries(layer, |layer.categories|), query);
        results := results + hits;
        l := l + 1;
      }
    }

    /** The `layer.categories.forEach` body of `searchTechnologies`. */
    method SearchLayer(layer: Layer, query: string) returns (results: seq<SearchResult>)
      ensures results == Select(LayerEntries(layer, |layer.categories|), query)
    {
      results := [];
      var c := 0;
      while c < |layer.categories|
        invariant 0 <= c <= |layer.categories|
        invariant results == Select(LayerEntries(layer, c), query)
      {
        var hits := SearchCategory(layer, layer.categories[c], query);
        SelectAppend(LayerEntries(layer, c), CategoryEntries(layer.categories[c], layer), query);
        results := results + hits;
        c := c + 1;
      }
    }

    /** The `category.technologies.forEach` body: push each technology whose search text
        contains the query, with its category and layer. */
    method SearchCategory(layer: Layer, category: Category, query: string) returns (results: seq<SearchResult>)
      ensures results == Select(CategoryEntries(category, layer), query)
    {
      results := [];
      var t := 0;
      while t < |category.technologies|
        invariant 0 <= t <= |category.technologies|
        invariant results == Select(TechEntries(layer, category, t), query)
      {
        var tech := category.technologies[t];
        var searchText := SearchText(tech, category);
        SelectSnoc(TechEntries(layer, category, t), SearchResult(tech, category, layer), query);
        if Contains(searchText, query) {
          results := results + [SearchResult(tech, category, layer)];
        }
        t := t + 1;
      }
    }

    /** `hideAllItems`: every technology item dimmed, colours cleared. */
    method HideAllItems()
      requires Valid()
      modifies styles
      ensures styles[..] == SetItems(elements, old(styles[..]), Dimmed)
    {
      var i := 0;
      while i < styles.Length
        invariant 0 <= i <= styles.Length
        invariant forall k :: 0 <= k < i ==> styles[k] == if elements[k].TechItem? then Dimmed else old(styles[k])
        invariant forall k :: i <= k < styles.Length ==> styles[k] == old(styles[k])
      {
        if elements[i].TechItem? {
          styles[i] := Dimmed;
        }
        i := i + 1;
      }
    }

    /** `showAllItems`: every technology item at full opacity, colours cleared. */
    method ShowAllItems()
      requires Valid()
      modifies styles
      ensures styles[..] == SetItems(elements, old(styles[..]), Shown)
    {
      var i := 0;
      while i < styles.Length
        invariant 0 <= i <= styles.Length
        invariant forall k :: 0 <= k < i ==> styles[k] == if elements[k].TechItem? then Shown else old(styles[k])
        invariant forall k :: i <= k < styles.Length ==> styles[k] == old(styles[k])
      {
        if elements[i].TechItem? {
          styles[i] := Shown;
        }
        i := i + 1;
      }
    }

    /** `document.querySelectorAll('[data-search*="v"]')` and the highlight style on each. */
    method HighlightMatching(v: string)
      requires Valid()
      modifies styles
      ensures styles[..] == Light(elements, old(styles[..]), v)
    {
      var i := 0;
      while i < styles.Length
        invariant 0 <= i <= styles.Length
        invariant forall k :: 0 <= k < i ==> styles[k] == if Selects(elements[k], v) then Highlighted else old(styles[k])
        invariant forall k :: i <= k < styles.Length ==> styles[k] == old(styles[k])
      {
        if Selects(elements[i], v) {
          styles[i] := Highlighted;
        }
        i := i + 1;
      }
    }

    /** `highlightSearchResults(results)`: hide every item, then highlight what each result's
        lower-cased name selects. */
    method HighlightSearchResults(results: seq<SearchResult>)
      requires Valid()
      modifies styles
      ensures styles[..] == LightResults(elements, SetItems(elements, old(styles[..]), Dimmed), results)
    {
      HideAllItems();
      ghost var hidden := styles[..];
      var k := 0;
      while k < |results|
        invariant 0 <= k <= |results|
        invariant styles[..] == LightResults(elements, hidden, results[..k])
      {
        HighlightMatching(Lower(results[k].tech.name));
        assert results[..k + 1][..k] == results[..k];
        k := k + 1;
      }
      assert results[..k] == results;
    }

    /** `displaySearchResults(results, query)`: "No results found" with every item dimmed, or the
        result lines and the highlight pass. */
    method DisplaySearchResults(results: seq<SearchResult>, query: string)
      requires Valid()
      modifies this`panel, styles
      ensures Valid()
      ensures panel == if |results| == 0 then NoResults else Listing(results)
      ensures styles[..] == LightResults(elements, SetItems(elements, old(styles[..]), Dimmed), results)
    {
      if |results| == 0 {
        panel := NoResults;
        HideAllItems();
        return;
      }
      panel := Listing(results);
      HighlightSearchResults(results);
    }

    /** The `input` handler of `setupSearch`, given the field's value. */
    method OnSearchInput(value: string)
      requires Valid()
      modifies this`panel, styles
      ensures Valid()
      ensures var query := Lower(value);
        if !RunsSearch(query) then
          panel == Blank && styles[..] == SetItems(elements, old(styles[..]), Shown)
        else
          var results := Search(data, query);
          panel == (if |results| == 0 then NoResults else Listing(results))
          && styles[..] == LightResults(elements, SetItems(elements, old(styles[..]), Dimmed), results)
    {
      var query := Lower(value);
      if Utf16Length(query) < 2 {
        panel := Blank;
        ShowAllItems();
        return;
      }
      var results := SearchTechnologies(query);
      DisplaySearchResults(results, query);
    }

    /** `window.highlightTechnology(techName)` on the loader: hide every item, then highlight
        what the lower-cased name selects. */
    method HighlightTechnology(techName: string)
      requires Valid()
      modifies styles
      ensures styles[..] == Light(elements, SetItems(elements, old(styles[..]), Dimmed), Lower(techName))
    {
      HideAllItems();
      HighlightMatching(Lower(techName));
    }
  }

  /** `highlightTechnology(name)` does what a highlight pass over one result of that name does. */
  lemma HighlightTechnologyIsOneResult(els: seq<Element>, st: seq<Style>, r: SearchResult)
    requires |els| == |st|
    ensures Light(els, st, Lower(r.tech.name)) == LightResults(els, st, [r])
  {
    assert [r][..0] == [];
  }
}
