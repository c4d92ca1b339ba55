/** What the validator promises, stated over the reference semantics of module `Validate`:
    which required fields are reported and in what order, when the walk stops, what is never
    looked at, and that the URL check can only ever produce warnings. */
module ValidationProperties {
  import opened Strings
  import opened JsValues
  import opened Validate
  import opened Sequences

  // ---------------------------------------------------------------------------------------
  // Required fields

  /** The required fields of `v` that are falsy, in `requiredFields` order (an independent,
      front-to-back definition of what the required-field loop reports). */
  function MissingFields(v: Value, fields: seq<string>): (r: seq<string>)
    requires !IsNullish(v)
    ensures |r| <= |fields|
  {
    if |fields| == 0 then []
    else (if Truthy(Prop(v, fields[0])) then [] else [fields[0]]) + MissingFields(v, fields[1..])
  }

  /** A name is missing exactly when it is one of the required fields and `v` has it falsy. */
  lemma {:induction false} MissingFieldsMembers(v: Value, fields: seq<string>, f: string)
    requires !IsNullish(v)
    ensures f in MissingFields(v, fields) <==> f in fields && !Truthy(Prop(v, f))
    decreases |fields|
  {
    if |fields| > 0 {
      MissingFieldsMembers(v, fields[1..], f);
      assert fields == [fields[0]] + fields[1..];
    }
  }

  /** One "missing required field" message per name, in order. */
  function Messages(s: Subject, names: seq<string>): (r: seq<string>)
    ensures |r| == |names|
    ensures forall i :: 0 <= i < |names| ==> r[i] == MissingFieldMessage(s, names[i])
  {
    seq(|names|, i requires 0 <= i < |names| => MissingFieldMessage(s, names[i]))
  }

  lemma {:induction false} MissingFieldsAppend(v: Value, fields: seq<string>, f: string)
    requires !IsNullish(v)
    ensures MissingFields(v, fields + [f])
         == MissingFields(v, fields) + (if Truthy(Prop(v, f)) then [] else [f])
    decreases |fields|
  {
    if |fields| == 0 {
      assert fields + [f] == [f];
      assert [f][1..] == [];
    } else {
      TailSnoc(fields, f);
      MissingFieldsAppend(v, fields[1..], f);
    }
  }

  lemma MessagesAppend(s: Subject, a: seq<string>, b: seq<string>)
    ensures Messages(s, a + b) == Messages(s, a) + Messages(s, b)
  {
  }

  /** The message one required field contributes: none when it is truthy. */
  function FieldMessages(v: Value, f: string, s: Subject): seq<string>
    requires !IsNullish(v)
  {
    Messages(s, if Truthy(Prop(v, f)) then [] else [f])
  }

  lemma FieldsLogStep(v: Value, fields: seq<string>, n: nat, s: Subject)
    requires !IsNullish(v) && 0 < n <= |fields|
    ensures FieldsLog(v, fields, n, s).errors
         == FieldsLog(v, fields, n - 1, s).errors + FieldMessages(v, fields[n - 1], s)
  {
    FieldsLogNext(v, fields, n - 1, s);
    var f := fields[n - 1];
    if Truthy(Prop(v, f)) {
      assert FieldCheck(v, f, s).errors == [] == FieldMessages(v, f, s);
    } else {
      assert FieldCheck(v, f, s).errors == [MissingFieldMessage(s, f)] == FieldMessages(v, f, s);
    }
  }

  lemma MissingFieldsStep(v: Value, fields: seq<string>, n: nat, s: Subject)
    requires !IsNullish(v) && 0 < n <= |fields|
    ensures Messages(s, MissingFields(v, fields[..n]))
         == Messages(s, MissingFields(v, fields[..n - 1])) + FieldMessages(v, fields[n - 1], s)
  {
    PrefixSnoc(fields, n);
    MissingFieldsAppend(v, fields[..n - 1], fields[n - 1]);
    MessagesAppend(s, MissingFields(v, fields[..n - 1]), if Truthy(Prop(v, fields[n - 1])) then [] else [fields[n - 1]]);
  }

  lemma {:induction false} FieldsLogIsMissingFields(v: Value, fields: seq<string>, n: nat, s: Subject)
    requires !IsNullish(v) && n <= |fields|
    ensures FieldsLog(v, fields, n, s).errors == Messages(s, MissingFields(v, fields[..n]))
    decreases n
  {
    if n > 0 {
      FieldsLogIsMissingFields(v, fields, n - 1, s);
      FieldsLogStep(v, fields, n, s);
      MissingFieldsStep(v, fields, n, s);
    }
  }

  /** On a node that is neither null nor undefined, the required-field loop reports exactly the
      falsy fields, one message each, in `requiredFields` order, and never throws or warns. */
  lemma RequiredFieldsReported(v: Value, fields: seq<string>, s: Subject)
    requires !IsNullish(v)
    ensures FieldsLog(v, fields, |fields|, s) == Log(Messages(s, MissingFields(v, fields)), [], None)
  {
    FieldsLogIsMissingFields(v, fields, |fields|, s);
    WholePrefix(fields);
  }


  // ---------------------------------------------------------------------------------------
  // Metadata and layers

  /** A falsy `metadata` yields its one error and no field check; otherwise one error per falsy
      `title`, `subtitle`, `version`, in that order. Neither case throws or warns. */
  lemma MetadataChecks(metadata: Value)
    ensures !Truthy(metadata) ==> MetadataLog(metadata) == Log([MissingMetadataMessage], [], None)
    ensures Truthy(metadata) ==>
      MetadataLog(metadata) == Log(Messages(MetadataSection, MissingFields(metadata, MetadataFields)), [], None)
  {
    if Truthy(metadata) {
      RequiredFieldsReported(metadata, MetadataFields, MetadataSection);
    }
  }

  /** Metadata errors come first, then everything the layers contribute; `validateData` fails
      with a TypeError only when the document itself is null or undefined, or a node below it is. */
  lemma MetadataBeforeLayers(data: Value, isValidUrl: string -> bool)
    requires !IsNullish(data)
    ensures Validation(data, isValidUrl).errors
         == MetadataLog(Prop(data, "metadata")).errors + LayersLog(data, isValidUrl).errors
    ensures Validation(data, isValidUrl).warnings == LayersLog(data, isValidUrl).warnings
    ensures Validation(data, isValidUrl).thrown == LayersLog(data, isValidUrl).thrown
  {
    ValidationParts(data, isValidUrl);
  }

  /** Without a `layers` array, `validateData` adds the one layers error after the metadata
      errors, returns false and looks at no layer. */
  lemma LayersMissing(data: Value, isValidUrl: string -> bool)
    requires !IsNullish(data)
    requires !Truthy(Prop(data, "layers")) || !Prop(data, "layers").Arr?
    ensures Validation(data, isValidUrl)
         == Log(MetadataLog(Prop(data, "metadata")).errors + [MissingLayersMessage], [], None)
    ensures Outcome(Validation(data, isValidUrl)) == Normal(false)
  {
    ValidationParts(data, isValidUrl);
  }

  /** `JSON.parse("null")` gives a document whose `metadata` cannot be read. */
  lemma NullDocumentThrows(isValidUrl: string -> bool)
    ensures Outcome(Validation(Null, isValidUrl)) == Abrupt(TypeError(ReadFailure(Null, "metadata")))
  {
  }

  // ---------------------------------------------------------------------------------------
  // Layers, categories and technologies

  /** A layer's errors are its falsy required fields, in order, then its categories' errors. */
  lemma LayerFieldsReported(layer: Value, l: nat, isValidUrl: string -> bool)
    requires !IsNullish(layer)
    ensures LayerLog(layer, l, isValidUrl).errors
         == Messages(Node(LayerAt(l)), MissingFields(layer, LayerFields)) + CategoriesLog(layer, l, isValidUrl).errors
  {
    LayerLogParts(layer, l, isValidUrl);
    RequiredFieldsReported(layer, LayerFields, Node(LayerAt(l)));
  }

  /** A category's errors are its falsy required fields, in order, then its technologies' errors. */
  lemma CategoryFieldsReported(category: Value, l: nat, c: nat, isValidUrl: string -> bool)
    requires !IsNullish(category)
    ensures CategoryLog(category, l, c, isValidUrl).errors
         == Messages(Node(CategoryAt(l, c)), MissingFields(category, CategoryFields))
            + TechnologiesLog(category, l, c, isValidUrl).errors
  {
    CategoryLogParts(category, l, c, isValidUrl);
    RequiredFieldsReported(category, CategoryFields, Node(CategoryAt(l, c)));
  }

  /** A technology's errors are its falsy required fields, in order, then exactly one extra error
      when `searchTerms` is truthy but not an array, then its links' errors. */
  lemma TechnologyFieldsReported(tech: Value, l: nat, c: nat, t: nat, isValidUrl: string -> bool)
    requires !IsNullish(tech)
    ensures var terms := Prop(tech, "searchTerms");
      TechnologyLog(tech, l, c, t, isValidUrl).errors
      == Messages(Node(TechnologyAt(l, c, t)), MissingFields(tech, TechnologyFields))
         + (if Truthy(terms) && !terms.Arr? then [SearchTermsMessage(TechnologyAt(l, c, t))] else [])
         + LinksLog(tech, l, c, t, isValidUrl).errors
  {
    TechnologyLogParts(tech, l, c, t, isValidUrl);
    RequiredFieldsReported(tech, TechnologyFields, Node(TechnologyAt(l, c, t)));
  }

  /** Children are walked only through an array-valued field: without one the node contributes
      its own checks and nothing else. */
  lemma ChildrenOnlyThroughArrays(v: Value, l: nat, c: nat, t: nat, isValidUrl: string -> bool)
    ensures ArrayProp(v, "categories").None? ==> CategoriesLog(v, l, isValidUrl) == Clean
    ensures ArrayProp(v, "technologies").None? ==> TechnologiesLog(v, l, c, isValidUrl) == Clean
    ensures ArrayProp(v, "links").None? ==> LinksLog(v, l, c, t, isValidUrl) == Clean
    ensures ArrayProp(v, "categories").Some? ==>
      CategoriesLog(v, l, isValidUrl) == ForEach(Prop(v, "categories").items, |Prop(v, "categories").items|, EachCategory(l), isValidUrl)
  {
  }

  /** Only the required-field truthiness of a node matters to its field loop. */
  lemma {:induction false} FieldsLogTruthOnly(v: Value, w: Value, fields: seq<string>, n: nat, s: Subject)
    requires !IsNullish(v) && !IsNullish(w) && n <= |fields|
    requires forall j :: 0 <= j < |fields| ==> Truthy(Prop(v, fields[j])) == Truthy(Prop(w, fields[j]))
    ensures FieldsLog(v, fields, n, s) == FieldsLog(w, fields, n, s)
    decreases n
  {
    if n > 0 {
      FieldsLogTruthOnly(v, w, fields, n - 1, s);
      var f := fields[n - 1];
      assert Truthy(Prop(v, f)) == Truthy(Prop(w, f));
      assert FieldCheck(v, f, s) == FieldCheck(w, f, s);
    }
  }

  /** A category's own `links` are required but never walked: replacing them by any value of the
      same truthiness leaves the category's diagnostics unchanged. */
  lemma CategoryLinksNotWalked(props: map<string, Value>, links: Value, l: nat, c: nat, isValidUrl: string -> bool)
    requires Truthy(links) == Truthy(Prop(Obj(props), "links"))
    ensures CategoryLog(Obj(props["links" := links]), l, c, isValidUrl) == CategoryLog(Obj(props), l, c, isValidUrl)
  {
    var v, w := Obj(props), Obj(props["links" := links]);
    forall j | 0 <= j < |CategoryFields|
      ensures Truthy(Prop(v, CategoryFields[j])) == Truthy(Prop(w, CategoryFields[j]))
    {
      if CategoryFields[j] != "links" {
        assert Prop(w, CategoryFields[j]) == Prop(v, CategoryFields[j]);
      }
    }
    FieldsLogTruthOnly(v, w, CategoryFields, |CategoryFields|, Node(CategoryAt(l, c)));
    assert Prop(w, "technologies") == Prop(v, "technologies");
    CategoryLogParts(v, l, c, isValidUrl);
    CategoryLogParts(w, l, c, isValidUrl);
  }

  // ---------------------------------------------------------------------------------------
  // Links

  /** A link missing `text` or `url`, or both, adds exactly one error; a truthy `url` the URL
      parser rejects adds one warning; a truthy `url` whose string conversion throws ends the
      walk with that TypeError, after the missing-text error if there is one; a null link throws
      on reading `text`. */
  lemma LinkRules(link: Value, l: nat, c: nat, t: nat, k: nat, isValidUrl: string -> bool)
    ensures IsNullish(link) ==> LinkLog(link, l, c, t, k, isValidUrl) == Raise(TypeError(ReadFailure(link, "text")))
    ensures !IsNullish(link) ==>
      var text, url := Prop(link, "text"), Prop(link, "url");
      var log := LinkLog(link, l, c, t, k, isValidUrl);
      var thrown := Truthy(url) && Unprintable(url);
      (log.thrown.Some? <==> thrown)
      && (thrown ==> log.thrown == Some(TypeError(NoPrimitiveMessage)) && log.warnings == [])
      && log.errors == (if !Truthy(text) || !Truthy(url) then [TextOrUrlMessage(LinkAt(l, c, t, k))] else [])
      && (!thrown ==>
            log.warnings == (if Truthy(url) && !isValidUrl(ToJsString(url).value)
                             then [InvalidUrlMessage(LinkAt(l, c, t, k), ToJsString(url).value)] else []))
  {
    if !IsNullish(link) {
      ToJsStringThrows(Prop(link, "url"));
    }
  }

  /** A technology link whose url is `{"toString": 1}` makes the validator throw. */
  lemma ObjectUrlThrows(isValidUrl: string -> bool)
    ensures var link := Obj(map["text" := Str("t"), "url" := Obj(map["toString" := Num(1)])]);
      LinkLog(link, 0, 0, 0, 0, isValidUrl) == Raise(TypeError(NoPrimitiveMessage))
  {
  }

  // ---------------------------------------------------------------------------------------
  // The URL check only ever warns

  /** Two runs agree on everything that decides validity. */
  predicate SameVerdict(a: Log, b: Log) {
    a.errors == b.errors && a.thrown == b.thrown
  }

  lemma ThenSameVerdict(a1: Log, b1: Log, a2: Log, b2: Log)
    requires SameVerdict(a1, a2) && SameVerdict(b1, b2)
    ensures SameVerdict(Then(a1, b1), Then(a2, b2))
  {
  }

  lemma {:induction false} ForEachIgnoresUrls(items: seq<Value>, n: nat, step: Step, u1: string -> bool, u2: string -> bool)
    requires n <= |items|
    ensures SameVerdict(ForEach(items, n, step, u1), ForEach(items, n, step, u2))
    decreases Depth(step), 4 + n
  {
    if n > 0 {
      ForEachIgnoresUrls(items, n - 1, step, u1, u2);
      RunIgnoresUrls(step, items[n - 1], n - 1, u1, u2);
      assert ForEach(items, n, step, u1) == Then(ForEach(items, n - 1, step, u1), Run(step, items[n - 1], n - 1, u1));
      assert ForEach(items, n, step, u2) == Then(ForEach(items, n - 1, step, u2), Run(step, items[n - 1], n - 1, u2));
      ThenSameVerdict(ForEach(items, n - 1, step, u1), Run(step, items[n - 1], n - 1, u1),
                      ForEach(items, n - 1, step, u2), Run(step, items[n - 1], n - 1, u2));
    }
  }

  lemma {:induction false} RunIgnoresUrls(step: Step, v: Value, i: nat, u1: string -> bool, u2: string -> bool)
    ensures SameVerdict(Run(step, v, i, u1), Run(step, v, i, u2))
    decreases Depth(step), 3
  {
    match step
    case EachLayer => LayerIgnoresUrls(v, i, u1, u2);
    case EachCategory(l) => CategoryIgnoresUrls(v, l, i, u1, u2);
    case EachTechnology(l, c) => TechnologyIgnoresUrls(v, l, c, i, u1, u2);
    case EachLink(l, c, t) =>
  }

  lemma {:induction false} LayerIgnoresUrls(v: Value, i: nat, u1: string -> bool, u2: string -> bool)
    ensures SameVerdict(LayerLog(v, i, u1), LayerLog(v, i, u2))
    decreases Depth(EachLayer), 2
  {
    LayerLogParts(v, i, u1);
    LayerLogParts(v, i, u2);
    var categories := ArrayProp(v, "categories");
    if categories.Some? {
      ForEachIgnoresUrls(categories.value, |categories.value|, EachCategory(i), u1, u2);
    }
  }

  lemma {:induction false} CategoryIgnoresUrls(v: Value, l: nat, i: nat, u1: string -> bool, u2: string -> bool)
    ensures SameVerdict(CategoryLog(v, l, i, u1), CategoryLog(v, l, i, u2))
    decreases Depth(EachCategory(l)), 2
  {
    CategoryLogParts(v, l, i, u1);
    CategoryLogParts(v, l, i, u2);
    var techs := ArrayProp(v, "technologies");
    if techs.Some? {
      ForEachIgnoresUrls(techs.value, |techs.value|, EachTechnology(l, i), u1, u2);
    }
  }

  lemma {:induction false} TechnologyIgnoresUrls(v: Value, l: nat, c: nat, i: nat, u1: string -> bool, u2: string -> bool)
    ensures SameVerdict(TechnologyLog(v, l, c, i, u1), TechnologyLog(v, l, c, i, u2))
    decreases Depth(EachTechnology(l, c)), 2
  {
    TechnologyLogParts(v, l, c, i, u1);
    TechnologyLogParts(v, l, c, i, u2);
    var links := ArrayProp(v, "links");
    if links.Some? {
      ForEachIgnoresUrls(links.value, |links.value|, EachLink(l, c, i), u1, u2);
    }
  }


  /** Whatever the URL parser accepts, `validateData` reports the same errors, throws the same
      exception and returns the same result: the URL check can only add warnings. */
  lemma ValidityIgnoresUrlCheck(data: Value, u1: string -> bool, u2: string -> bool)
    ensures Validation(data, u1).errors == Validation(data, u2).errors
    ensures Outcome(Validation(data, u1)) == Outcome(Validation(data, u2))
  {
    if !IsNullish(data) {
      var layers := Prop(data, "layers");
      if Truthy(layers) && layers.Arr? {
        ForEachIgnoresUrls(layers.items, |layers.items|, EachLayer, u1, u2);
      }
    }
  }

  lemma {:induction false} ForEachWarnsOnlyOnUrls(items: seq<Value>, n: nat, step: Step, isValidUrl: string -> bool)
    requires n <= |items|
    requires forall s :: isValidUrl(s)
    ensures ForEach(items, n, step, isValidUrl).warnings == []
    decreases Depth(step), 4 + n
  {
    if n > 0 {
      ForEachWarnsOnlyOnUrls(items, n - 1, step, isValidUrl);
      RunWarnsOnlyOnUrls(step, items[n - 1], n - 1, isValidUrl);
      var done, last := ForEach(items, n - 1, step, isValidUrl), Run(step, items[n - 1], n - 1, isValidUrl);
      assert ForEach(items, n, step, isValidUrl) == Then(done, last);
      assert done.warnings + last.warnings == [];
    }
  }

  lemma {:induction false} RunWarnsOnlyOnUrls(step: Step, v: Value, i: nat, isValidUrl: string -> bool)
    requires forall s :: isValidUrl(s)
    ensures Run(step, v, i, isValidUrl).warnings == []
    decreases Depth(step), 3
  {
    match step
    case EachLayer => LayerWarnsOnlyOnUrls(v, i, isValidUrl);
    case EachCategory(l) => CategoryWarnsOnlyOnUrls(v, l, i, isValidUrl);
    case EachTechnology(l, c) => TechnologyWarnsOnlyOnUrls(v, l, c, i, isValidUrl);
    case EachLink(l, c, t) =>
  }

  lemma {:induction false} LayerWarnsOnlyOnUrls(v: Value, i: nat, isValidUrl: string -> bool)
    requires forall s :: isValidUrl(s)
    ensures LayerLog(v, i, isValidUrl).warnings == []
    decreases Depth(EachLayer), 2
  {
    LayerLogParts(v, i, isValidUrl);
    var categories := ArrayProp(v, "categories");
    if categories.Some? {
      ForEachWarnsOnlyOnUrls(categories.value, |categories.value|, EachCategory(i), isValidUrl);
    }
  }

  lemma {:induction false} CategoryWarnsOnlyOnUrls(v: Value, l: nat, i: nat, isValidUrl: string -> bool)
    requires forall s :: isValidUrl(s)
    ensures CategoryLog(v, l, i, isValidUrl).warnings == []
    decreases Depth(EachCategory(l)), 2
  {
    CategoryLogParts(v, l, i, isValidUrl);
    var techs := ArrayProp(v, "technologies");
    if techs.Some? {
      ForEachWarnsOnlyOnUrls(techs.value, |techs.value|, EachTechnology(l, i), isValidUrl);
    }
  }

  lemma {:induction false} TechnologyWarnsOnlyOnUrls(v: Value, l: nat, c: nat, i: nat, isValidUrl: string -> bool)
    requires forall s :: isValidUrl(s)
    ensures TechnologyLog(v, l, c, i, isValidUrl).warnings == []
    decreases Depth(EachTechnology(l, c)), 2
  {
    TechnologyLogParts(v, l, c, i, isValidUrl);
    var links := ArrayProp(v, "links");
    if links.Some? {
      ForEachWarnsOnlyOnUrls(links.value, |links.value|, EachLink(l, c, i), isValidUrl);
    }
  }


  /** Every warning is a URL warning: when the URL parser accepts everything there are none. */
  lemma WarningsOnlyFromUrls(data: Value, isValidUrl: string -> bool)
    requires forall s :: isValidUrl(s)
    ensures Validation(data, isValidUrl).warnings == []
  {
    if !IsNullish(data) {
      var layers := Prop(data, "layers");
      if Truthy(layers) && layers.Arr? {
        ForEachWarnsOnlyOnUrls(layers.items, |layers.items|, EachLayer, isValidUrl);
      }
      ValidationParts(data, isValidUrl);
    }
  }
}
