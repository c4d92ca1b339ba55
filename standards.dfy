/** The loaded document as the loader reads it (layers of categories of technologies, with only
    the fields that rendering and search look at), and the reference semantics of the search:
    every technology in traversal order, kept when its search text contains the query. */
module Standards {
  import opened Strings
  import opened Sequences

  datatype Technology = Technology(name: string, searchTerms: seq<string>)
  datatype Category = Category(name: string, technologies: seq<Technology>)
  datatype Layer = Layer(name: string, categories: seq<Category>)
  datatype Document = Document(layers: seq<Layer>)

  /** One hit of `searchTechnologies`: the technology together with its own category and layer. */
  datatype SearchResult = SearchResult(tech: Technology, category: Category, layer: Layer)

  /** The `data-search` attribute of a technology item: its search terms joined by single
      spaces, exactly as written (it is not lower-cased). */
  function SearchKey(tech: Technology): string {
    Join(tech.searchTerms, " ")
  }

  /** What a query is matched against: name, search terms and category name, lower-cased. */
  function SearchText(tech: Technology, category: Category): string {
    Lower(tech.name + " " + SearchKey(tech) + " " + category.name)
  }

  predicate Matches(query: string, r: SearchResult) {
    Contains(SearchText(r.tech, r.category), query)
  }

  // ---------------------------------------------------------------------------------------
  // Traversal order

  /** The first `n` technologies of `category`, each with its owners. */
  function TechEntries(layer: Layer, category: Category, n: nat): (r: seq<SearchResult>)
    requires n <= |category.technologies|
    ensures |r| == n
  {
    if n == 0 then []
    else TechEntries(layer, category, n - 1) + [SearchResult(category.technologies[n - 1], category, layer)]
  }

  /** The `t`-th entry of a category is its `t`-th technology, with that category and `layer`. */
  lemma {:induction false} TechEntriesAt(layer: Layer, category: Category, n: nat, t: nat)
    requires t < n <= |category.technologies|
    ensures TechEntries(layer, category, n)[t] == SearchResult(category.technologies[t], category, layer)
    decreases n
  {
    if t < n - 1 {
      TechEntriesAt(layer, category, n - 1, t);
    }
  }

  function CategoryEntries(category: Category, layer: Layer): seq<SearchResult> {
    TechEntries(layer, category, |category.technologies|)
  }

  /** The technologies of the first `n` categories of `layer`, category by category. */
  function LayerEntries(layer: Layer, n: nat): seq<SearchResult>
    requires n <= |layer.categories|
  {
    if n == 0 then [] else LayerEntries(layer, n - 1) + CategoryEntries(layer.categories[n - 1], layer)
  }

  /** The technologies of the first `n` layers, layer by layer. */
  function DocumentEntries(doc: Document, n: nat): seq<SearchResult>
    requires n <= |doc.layers|
  {
    if n == 0 then [] else DocumentEntries(doc, n - 1) + LayerEntries(doc.layers[n - 1], |doc.layers[n - 1].categories|)
  }

  /** Every technology of the document in layer, then category, then technology order. */
  function Entries(doc: Document): seq<SearchResult> {
    DocumentEntries(doc, |doc.layers|)
  }

  /** The entries whose search text contains `query`, in their order. */
  function Select(entries: seq<SearchResult>, query: string): (r: seq<SearchResult>)
    ensures |r| <= |entries|
  {
    if |entries| == 0 then []
    else
      var last := entries[|entries| - 1];
      Select(entries[..|entries| - 1], query) + (if Matches(query, last) then [last] else [])
  }

  /** One more entry: it is kept exactly when it matches. */
  lemma SelectSnoc(entries: seq<SearchResult>, e: SearchResult, query: string)
    ensures Select(entries + [e], query) == Select(entries, query) + (if Matches(query, e) then [e] else [])
  {
    assert (entries + [e])[..|entries|] == entries;
  }

  /** `searchTechnologies(query)`. */
  function Search(doc: Document, query: string): seq<SearchResult> {
    Select(Entries(doc), query)
  }

  /** The number of technologies of the first `n` categories of `layer`. */
  function LayerCount(layer: Layer, n: nat): nat
    requires n <= |layer.categories|
  {
    if n == 0 then 0 else LayerCount(layer, n - 1) + |layer.categories[n - 1].technologies|
  }

  /** The sum of `technologies.length` over the categories of the first `n` layers. */
  function TechnologyCount(doc: Document, n: nat): nat
    requires n <= |doc.layers|
  {
    if n == 0 then 0 else TechnologyCount(doc, n - 1) + LayerCount(doc.layers[n - 1], |doc.layers[n - 1].categories|)
  }

  // ---------------------------------------------------------------------------------------
  // Membership: which results there are

  /** `r` is some technology of `category` with that category and `layer` as owners. */
  ghost predicate InCategory(r: SearchResult, category: Category, layer: Layer) {
    exists t :: 0 <= t < |category.technologies| && r == SearchResult(category.technologies[t], category, layer)
  }

  /** `r` is a technology of one of the first `n` categories of `layer`, with its owners. */
  ghost predicate InLayer(r: SearchResult, layer: Layer, n: nat)
    requires n <= |layer.categories|
  {
    exists c :: 0 <= c < n && InCategory(r, layer.categories[c], layer)
  }

  /** `r` is a technology of one of the first `n` layers, with its own category and layer. */
  ghost predicate InDocument(r: SearchResult, doc: Document, n: nat)
    requires n <= |doc.layers|
  {
    exists l :: 0 <= l < n && InLayer(r, doc.layers[l], |doc.layers[l].categories|)
  }

  lemma {:induction false} LayerEntriesMembers(r: SearchResult, layer: Layer, n: nat)
    requires n <= |layer.categories|
    ensures r in LayerEntries(layer, n) <==> InLayer(r, layer, n)
  {
    if n > 0 {
      LayerEntriesMembers(r, layer, n - 1);
      var category := layer.categories[n - 1];
      if r in CategoryEntries(category, layer) {
        var t :| 0 <= t < |category.technologies| && CategoryEntries(category, layer)[t] == r;
        TechEntriesAt(layer, category, |category.technologies|, t);
        assert InCategory(r, category, layer);
      }
      if InCategory(r, category, layer) {
        var t :| 0 <= t < |category.technologies| && r == SearchResult(category.technologies[t], category, layer);
        TechEntriesAt(layer, category, |category.technologies|, t);
        assert CategoryEntries(category, layer)[t] == r;
      }
      if InLayer(r, layer, n) && !InCategory(r, category, layer) {
        var c :| 0 <= c < n && InCategory(r, layer.categories[c], layer);
        assert InLayer(r, layer, n - 1);
      }
    }
  }

  lemma {:induction false} DocumentEntriesMembers(r: SearchResult, doc: Document, n: nat)
    requires n <= |doc.layers|
    ensures r in DocumentEntries(doc, n) <==> InDocument(r, doc, n)
  {
    if n > 0 {
      DocumentEntriesMembers(r, doc, n - 1);
      var layer := doc.layers[n - 1];
      LayerEntriesMembers(r, layer, |layer.categories|);
      if InDocument(r, doc, n) && !InLayer(r, layer, |layer.categories|) {
        var l :| 0 <= l < n && InLayer(r, doc.layers[l], |doc.layers[l].categories|);
        assert InDocument(r, doc, n - 1);
      }
    }
  }

  lemma {:induction false} SelectMembers(entries: seq<SearchResult>, query: string, r: SearchResult)
    ensures r in Select(entries, query) <==> r in entries && Matches(query, r)
    decreases |entries|
  {
    if |entries| > 0 {
      SelectMembers(entries[..|entries| - 1], query, r);
      assert entries == entries[..|entries| - 1] + [entries[|entries| - 1]];
    }
  }

  /** A result is exactly a technology of the document, carrying its own category and layer,
      whose search text contains the query. */
  lemma SearchMembers(doc: Document, query: string, r: SearchResult)
    ensures r in Search(doc, query) <==> InDocument(r, doc, |doc.layers|) && Matches(query, r)
  {
    SelectMembers(Entries(doc), query, r);
    DocumentEntriesMembers(r, doc, |doc.layers|);
  }

  // ---------------------------------------------------------------------------------------
  // Order and multiplicity

  /** `a` is `b` with some elements left out, the rest in their order. */
  ghost predicate SubsequenceOf<T>(a: seq<T>, b: seq<T>)
    decreases |b|
  {
    if |a| == 0 then true
    else if |b| == 0 then false
    else (a[|a| - 1] == b[|b| - 1] && SubsequenceOf(a[..|a| - 1], b[..|b| - 1])) || SubsequenceOf(a, b[..|b| - 1])
  }

  /** The results keep traversal order. */
  lemma {:induction false} SelectKeepsOrder(entries: seq<SearchResult>, query: string)
    ensures SubsequenceOf(Select(entries, query), entries)
    decreases |entries|
  {
    if |entries| > 0 {
      var init, last := entries[..|entries| - 1], entries[|entries| - 1];
      SelectKeepsOrder(init, query);
      var r := Select(entries, query);
      if Matches(query, last) {
        assert r == Select(init, query) + [last];
        assert r[..|r| - 1] == Select(init, query);
        assert entries[..|entries| - 1] == init;
      } else {
        assert r == Select(init, query);
        assert entries[..|entries| - 1] == init;
      }
    }
  }

  /** A technology occurs among the results as often as it occurs in the tree when it matches,
      and not at all otherwise. */
  lemma {:induction false} SelectCounts(entries: seq<SearchResult>, query: string, r: SearchResult)
    ensures multiset(Select(entries, query))[r] == if Matches(query, r) then multiset(entries)[r] else 0
    decreases |entries|
  {
    if |entries| > 0 {
      var init, last := entries[..|entries| - 1], entries[|entries| - 1];
      SelectCounts(init, query, r);
      assert entries == init + [last];
      assert multiset(entries) == multiset(init) + multiset{last};
    }
  }

  /** `results.push` on a concatenation: the hits of each part, one part after the other. */
  lemma {:induction false} SelectAppend(a: seq<SearchResult>, b: seq<SearchResult>, query: string)
    ensures Select(a + b, query) == Select(a, query) + Select(b, query)
    decreases |b|
  {
    if |b| > 0 {
      var init, last := b[..|b| - 1], b[|b| - 1];
      SelectAppend(a, init, query);
      assert (a + b)[..|a + b| - 1] == a + init;
    } else {
      assert a + b == a;
    }
  }

  /** The search sees every technology once: as many entries as `technologies.length` summed
      over every category of every layer. */
  lemma {:induction false} EntriesCount(doc: Document, n: nat)
    requires n <= |doc.layers|
    ensures |DocumentEntries(doc, n)| == TechnologyCount(doc, n)
  {
    if n > 0 {
      EntriesCount(doc, n - 1);
      LayerEntriesCount(doc.layers[n - 1], |doc.layers[n - 1].categories|);
    }
  }

  lemma {:induction false} LayerEntriesCount(layer: Layer, n: nat)
    requires n <= |layer.categories|
    ensures |LayerEntries(layer, n)| == LayerCount(layer, n)
  {
    if n > 0 {
      LayerEntriesCount(layer, n - 1);
    }
  }

  // ---------------------------------------------------------------------------------------
  // The search text

  /** The name, every search term and the category name occur, lower-cased, in the search text,
      so any query found in one of them finds the technology (case-insensitively). */
  lemma SearchTextParts(tech: Technology, category: Category)
    ensures Contains(SearchText(tech, category), Lower(tech.name))
    ensures Contains(SearchText(tech, category), Lower(category.name))
    ensures forall k :: 0 <= k < |tech.searchTerms| ==> Contains(SearchText(tech, category), Lower(tech.searchTerms[k]))
  {
    NameInSearchText(tech, category);
    CategoryInSearchText(tech, category);
    forall k | 0 <= k < |tech.searchTerms|
      ensures Contains(SearchText(tech, category), Lower(tech.searchTerms[k]))
    {
      TermInSearchText(tech, category, k);
    }
  }

  lemma NameInSearchText(tech: Technology, category: Category)
    ensures Contains(SearchText(tech, category), Lower(tech.name))
  {
    var raw := tech.name + " " + SearchKey(tech) + " " + category.name;
    var rest := " " + SearchKey(tech) + " " + category.name;
    AppendAssoc4(tech.name, " ", SearchKey(tech), " ");
    AppendAssoc(tech.name, " " + SearchKey(tech) + " ", category.name);
    assert raw == tech.name + rest;
    assert raw[..|tech.name|] == tech.name;
    assert Lower(raw)[..|tech.name|] == Lower(tech.name);
  }

  lemma CategoryInSearchText(tech: Technology, category: Category)
    ensures Contains(SearchText(tech, category), Lower(category.name))
  {
    var front := tech.name + " " + SearchKey(tech) + " ";
    ContainsInfix(front, category.name, "");
    assert front + category.name + "" == front + category.name;
    ContainsLower(front + category.name, category.name);
  }

  lemma TermInSearchText(tech: Technology, category: Category, k: nat)
    requires k < |tech.searchTerms|
    ensures Contains(SearchText(tech, category), Lower(tech.searchTerms[k]))
  {
    var raw := tech.name + " " + SearchKey(tech) + " " + category.name;
    JoinContainsPart(tech.searchTerms, " ", k);
    AppendAssoc(tech.name + " " + SearchKey(tech), " ", category.name);
    ContainsInfix(tech.name + " ", SearchKey(tech), " " + category.name);
    ContainsTransitive(raw, SearchKey(tech), tech.searchTerms[k]);
    ContainsLower(raw, tech.searchTerms[k]);
  }

  /** A query found in the lower-cased name, a lower-cased search term or the lower-cased
      category name is a hit. */
  lemma MatchesByPart(query: string, r: SearchResult)
    requires Contains(Lower(r.tech.name), query)
          || Contains(Lower(r.category.name), query)
          || exists k :: 0 <= k < |r.tech.searchTerms| && Contains(Lower(r.tech.searchTerms[k]), query)
    ensures Matches(query, r)
  {
    SearchTextParts(r.tech, r.category);
    var text := SearchText(r.tech, r.category);
    if Contains(Lower(r.tech.name), query) {
      ContainsTransitive(text, Lower(r.tech.name), query);
    } else if Contains(Lower(r.category.name), query) {
      ContainsTransitive(text, Lower(r.category.name), query);
    } else {
      var k :| 0 <= k < |r.tech.searchTerms| && Contains(Lower(r.tech.searchTerms[k]), query);
      ContainsTransitive(text, Lower(r.tech.searchTerms[k]), query);
    }
  }

  /** A query holding an upper-case letter matches nothing: the search text is lower-cased,
      which is why the input handler lower-cases the query first. */
  lemma UpperCaseQueryMatchesNothing(query: string, r: SearchResult, k: nat)
    requires k < |query| && 'A' <= query[k] <= 'Z'
    ensures !Matches(query, r)
  {
    var text := SearchText(r.tech, r.category);
    forall i | 0 <= i && i + |query| <= |text|
      ensures !OccursAt(text, query, i)
    {
      assert text[i..i + |query|][k] == text[i + k];
    }
    ContainsIffOccurs(text, query);
  }
}
