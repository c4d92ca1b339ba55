# Streaming-standards diagram: validator and search, modelled in Dafny

This project models two parts of the streaming-standards diagram.

- The schema validator, `DataValidator` (js/validate-data.js). It walks a JSON document: metadata, then layers, categories, technologies and links. Into its `errors` and `warnings` lists it appends:
  - one message per falsy required field;
  - one message per value of the wrong kind;
  - a warning per link URL that does not parse.
  From those lists it builds the validation report.
- The loader's search and highlight state, in `StreamingStandardsDataLoader` (js/data-loader.js):
  - the technology search;
  - the two-character threshold of the input handler;
  - the elements that rendering puts on the page, with their `data-search` keys;
  - the inline style of those elements, which hiding, showing and highlighting update in place.

Modules:

- `Strings`: the text operations the code relies on. These are number printing, `join`, ASCII `toLowerCase` and `includes`.
- `JsValues`: JSON values as JavaScript sees them. It covers truthiness, property reads (which throw a TypeError on null and undefined) and `String(v)` (which throws a TypeError on an object with an own `toString` key, since JSON can only give that key a value that cannot be called).
- `Sequences`: small facts about sequence concatenation.
- `Validate`: the validator.
  - The `...Log` functions are the reference semantics. They give the errors and warnings each check appends, in order, and the exception that ends the walk early.
  - The class `DataValidator` holds the `errors` and `warnings` fields. Its methods append to them in nested loops, and each method is proved to append exactly what the reference semantics gives.
- `ValidationProperties`: what the validator promises, proved over the reference semantics.
- `Standards`: the loaded document as the loader reads it, and the reference semantics of the search. That semantics is every technology in traversal order, filtered by the search text.
- `Loader`: the rendered elements, their styles and the search panel. It also holds the class `StreamingStandardsDataLoader`:
  - `elements` is a `seq`;
  - `styles` is an `array`, one entry per element;
  - `panel` holds what `#searchResults` shows.
  Hiding, showing and highlighting are loops over `styles`, proved against the functions `SetItems`, `Light` and `LightResults`.

Two foreign calls become parameters:

- the URL parser (`new URL`) is a predicate `isValidUrl`, supplied when the validator is created;
- `JSON.parse` is a function `parse` from a string to a value or a thrown `SyntaxError`.

Where the code's behaviour may surprise a reader, the model follows the code:

- `validateJsonString` turns every exception into its one-error report, including the TypeError that `validateData` throws on a null node such as `"layers": [null]`. The error message is then "JSON parsing error: Cannot read properties of null (reading 'id')" (V8's wording).
- The `data-search` key of a technology item is its search terms joined by spaces, not lower-cased (js/data-loader.js:143). The highlight selector `[data-search*="…"]` compares case-sensitively against the lower-cased result name.
- The highlight selector also matches category headers. Their `data-search` is the lower-cased category name (js/data-loader.js:101), for a name holding no `"` and no HTML character reference.
  - `hideAllItems` and `showAllItems` reset only `.tech-item`s.
  - So a header highlighted by one search stays highlighted through later searches and through clearing the query (`HeaderHighlightSticks`).
  - Styles are therefore not recomputed from scratch for headers.
- An item is highlighted when its key contains some result's lower-cased name. This is not the same as "the item of a result". A result whose lower-cased name does not occur in its own `data-search` key leaves its own item dimmed, unless another result's name occurs there. Any item can also be lit by another result's name.
- A link whose `url` is an object with an own `toString` key, or an array holding one, makes `isValidUrl` catch the conversion error and answer false. The template literal of the warning then converts the url again and throws, so `validateData` throws and `validateJsonString` returns its one-error report.
- The input handler's `query.length < 2` counts UTF-16 code units, so a single character outside the Basic Multilingual Plane, such as an emoji, already runs the search.
- An empty name in `[data-search*=""]` selects nothing, following the Selectors Level 3 rule for substring attribute selectors.

## Model

| member | source | states |
|---|---|---|
| Strings.TensUnits | js/validate-data.js:51 | `NatToString` splits an index into its quotient and remainder by ten, the leading digits and the last digit of the printed index |
| Strings.ContainsIffOccurs | js/data-loader.js:231 | `includes` holds exactly when the query occurs at some index of the text |
| Strings.ContainsLower | js/data-loader.js:230 | lower-casing text and query keeps an occurrence |
| Strings.Utf16Length | js/data-loader.js:213 | a string's `length` lies between its number of characters and twice that |
| Strings.Utf16LengthBmp | js/data-loader.js:213 | on text inside the Basic Multilingual Plane, `length` is the number of characters |
| Strings.JoinContainsPart | js/data-loader.js:143 | every search term occurs in the space-joined key |
| JsValues.Collect | js/validate-data.js:107 | converting a sequence of values succeeds iff every item converts, giving the items' strings in order, and otherwise throws one item's exception |
| JsValues.ToJsString | js/validate-data.js:107 | `String(v)` throws only the TypeError of a value with no primitive form |
| JsValues.ToJsStringThrows | js/validate-data.js:106-107 | `String(v)` throws exactly on an object with an own `toString` key, or an array holding one at any depth |
| Validate.FieldsLog | js/validate-data.js:49-53 | the required-field loop never warns, and it throws exactly when the node is null or undefined and there is a field to read |
| Validate.NullNodeThrows | js/validate-data.js:49-53 | on a null or undefined node, reading the first required field throws and nothing is reported |
| Validate.FieldsLogStops | js/validate-data.js:49-53 | once a field read has thrown, later fields add nothing |
| Validate.ForEachStops | js/validate-data.js:25-27 | once one loop body has thrown, the rest of a `forEach` adds nothing |
| Validate.ValidationParts | js/validate-data.js:12-30 | `validateData` gives the metadata errors and then the layers' diagnostics; a null or undefined document throws on reading `metadata` |
| Validate.LayerLogParts | js/validate-data.js:46-60 | a layer's diagnostics are its required-field errors, then its categories' |
| Validate.CategoryLogParts | js/validate-data.js:62-76 | a category's diagnostics are its required-field errors, then its technologies' |
| Validate.TechnologyLogParts | js/validate-data.js:78-98 | a technology's diagnostics are its field errors, then the `searchTerms` error, then its links' |
| Validate.ReportOf | js/validate-data.js:120-140 | `isValid` iff there are no errors; the counts are the list lengths; the message starts with the failure, warning or success icon in exactly those three cases |
| Validate.DataValidator.constructor | js/validate-data.js:7-10 | a new validator has empty lists |
| Validate.DataValidator.ValidateData | js/validate-data.js:12-30 | after the call, `errors` and `warnings` are the document's own diagnostics, whatever they held before; it returns `errors.length === 0`, or throws what the walk threw |
| Validate.DataValidator.ValidateMetadata | js/validate-data.js:32-44 | appends exactly the metadata diagnostics, never a warning, and never throws |
| Validate.DataValidator.CheckRequiredFields | js/validate-data.js:47-53 | the required-field loop appends exactly `FieldsLog`'s errors and returns its exception |
| Validate.DataValidator.CheckField | js/validate-data.js:50-52 | one field check appends at most its one error, or throws on a null node |
| Validate.DataValidator.ValidateEach | js/validate-data.js:25-27 | a `forEach` over children appends each child's diagnostics in index order and stops at the first exception |
| Validate.DataValidator.ValidateItem | js/validate-data.js:26 | one loop body appends what the reference semantics of that node kind gives |
| Validate.DataValidator.ValidateLayer | js/validate-data.js:46-60 | appends exactly the layer's diagnostics |
| Validate.DataValidator.ValidateCategory | js/validate-data.js:62-76 | appends exactly the category's diagnostics |
| Validate.DataValidator.ValidateTechnology | js/validate-data.js:78-98 | appends exactly the technology's diagnostics |
| Validate.DataValidator.ValidateLink | js/validate-data.js:100-109 | appends exactly the link's error and warning, and throws when the url cannot be converted to a string |
| Validate.DataValidator.ValidateJsonString | js/validate-data.js:143-169 | a parse failure, or an exception in validation, gives `isValid: false` with exactly one error, no warnings and counts 1 and 0; otherwise the result carries the data and the fresh validator's report; `error` is present iff `data` is absent |
| ValidationProperties.MissingFieldsMembers | js/validate-data.js:49-53 | a field is reported missing iff it is required and falsy on the node |
| ValidationProperties.FieldsLogIsMissingFields | js/validate-data.js:49-53 | the loop's errors over the first `n` fields are one message per falsy field among them, in order |
| ValidationProperties.RequiredFieldsReported | js/validate-data.js:47-53 | on a node that is not null, the loop reports exactly the falsy required fields, in `requiredFields` order, and never warns or throws |
| ValidationProperties.MetadataChecks | js/validate-data.js:32-44 | missing `metadata` gives exactly one error and no field check; otherwise one error per falsy `title`, `subtitle`, `version`, in that order |
| ValidationProperties.MetadataBeforeLayers | js/validate-data.js:16-27 | the metadata errors come before every layer diagnostic |
| ValidationProperties.LayersMissing | js/validate-data.js:20-23 | without a `layers` array: exactly one more error, result false, and no layer examined |
| ValidationProperties.NullDocumentThrows | js/validate-data.js:17 | a `null` document makes `validateData` throw a TypeError on reading `metadata` |
| ValidationProperties.LayerFieldsReported | js/validate-data.js:46-60 | a layer reports its falsy fields in order, tagged with its index, then its categories' errors |
| ValidationProperties.CategoryFieldsReported | js/validate-data.js:62-76 | a category reports its falsy fields in order, tagged with its index path, then its technologies' errors |
| ValidationProperties.TechnologyFieldsReported | js/validate-data.js:78-98 | a technology reports its falsy fields, then exactly one extra error for a truthy non-array `searchTerms`, then its links' errors |
| ValidationProperties.ChildrenOnlyThroughArrays | js/validate-data.js:55-59 | categories, technologies and links are walked only when the field is an array; otherwise they contribute nothing |
| ValidationProperties.FieldsLogTruthOnly | js/validate-data.js:49-53 | only the truthiness of the required fields matters to the field loop |
| ValidationProperties.CategoryLinksNotWalked | js/validate-data.js:62-76 | a category's `links` are checked only for truthiness, never link by link |
| ValidationProperties.LinkRules | js/validate-data.js:100-109 | a link missing `text` or `url` (or both) adds exactly one error; a truthy `url` the parser rejects adds one warning; a truthy `url` whose conversion throws ends the walk with that TypeError and no warning; a null link throws |
| ValidationProperties.ObjectUrlThrows | js/validate-data.js:106-107 | the link `{"text": "t", "url": {"toString": 1}}` makes the validator throw |
| ValidationProperties.ForEachIgnoresUrls | js/validate-data.js:25-27 | over any loop, the URL check changes neither the errors nor the exception |
| ValidationProperties.RunIgnoresUrls | js/validate-data.js:26 | the same for one loop body of any node kind |
| ValidationProperties.ValidityIgnoresUrlCheck | js/validate-data.js:106-108 | whatever the URL parser accepts, `validateData` reports the same errors and returns the same result: warnings never change validity |
| ValidationProperties.ForEachWarnsOnlyOnUrls | js/validate-data.js:25-27 | over any loop, no warning arises when every URL parses |
| ValidationProperties.RunWarnsOnlyOnUrls | js/validate-data.js:26 | the same for one loop body of any node kind |
| ValidationProperties.WarningsOnlyFromUrls | js/validate-data.js:105-108 | every warning comes from the URL check: with a parser that accepts everything there are none |
| Standards.TechEntriesAt | js/data-loader.js:229-236 | the `t`-th entry of a category is its `t`-th technology with that category and layer |
| Standards.SelectSnoc | js/data-loader.js:231-236 | one more technology is pushed exactly when its search text contains the query |
| Standards.SelectMembers | js/data-loader.js:231-237 | an entry is kept iff it matches the query |
| Standards.LayerEntriesMembers | js/data-loader.js:228-239 | a layer's entries are exactly its categories' technologies, each with its own category and the layer |
| Standards.DocumentEntriesMembers | js/data-loader.js:227-240 | the document's entries are exactly its technologies, each with its own category and layer |
| Standards.SearchMembers | js/data-loader.js:224-243 | a result is exactly a technology of the document, with its owning category and layer, whose lower-cased name, search terms and category name contain the query |
| Standards.SelectKeepsOrder | js/data-loader.js:227-242 | the results keep layer, then category, then technology order |
| Standards.SelectCounts | js/data-loader.js:227-242 | a matching technology appears among the results as often as it occurs in the tree, and a non-matching one never |
| Standards.SelectAppend | js/data-loader.js:227-240 | the results of a concatenation are the results of each part in turn |
| Standards.EntriesCount | js/data-loader.js:227-240 | the search visits as many technologies as the sum of `technologies.length` over every category of every layer |
| Standards.LayerEntriesCount | js/data-loader.js:228-239 | the same for one layer |
| Standards.SearchTextParts | js/data-loader.js:230 | the lower-cased name, every lower-cased search term and the lower-cased category name occur in the search text |
| Standards.NameInSearchText | js/data-loader.js:230 | the lower-cased name occurs in the search text |
| Standards.CategoryInSearchText | js/data-loader.js:230 | the lower-cased category name occurs in the search text |
| Standards.TermInSearchText | js/data-loader.js:230 | each lower-cased search term occurs in the search text |
| Standards.MatchesByPart | js/data-loader.js:230-231 | a query found in the lower-cased name, a term or the category name finds the technology |
| Standards.UpperCaseQueryMatchesNothing | js/data-loader.js:230-231 | a query holding an upper-case letter finds nothing, because the search text is lower-cased |
| Loader.TechElementsKeys | js/data-loader.js:130-133 | a category's items carry its technologies' keys in order |
| Loader.CategoryElementsKeys | js/data-loader.js:96-138 | a category renders its header and then one item per technology |
| Loader.LayerElementsKeys | js/data-loader.js:86-89 | a layer's items are its categories' items in order |
| Loader.DocumentElementsKeys | js/data-loader.js:57-60 | the page's items are the layers' items in order |
| Loader.RenderedItems | js/data-loader.js:143 | the rendered items are the technologies in traversal order, each keyed by its space-joined search terms; there are as many as `technologies.length` summed over all categories of all layers |
| Loader.LightResultsAt | js/data-loader.js:269-276 | after the highlight pass, an element is highlighted iff some result's lower-cased name selects it, and keeps its style otherwise |
| Loader.SetItemsUniform | js/data-loader.js:279-295 | hiding or showing sets every technology item to one style, leaves every other element alone, and is idempotent |
| Loader.HighlightedItems | js/data-loader.js:264-277 | after `highlightSearchResults`, an item is highlighted iff its key contains some result's lower-cased name, and dimmed otherwise |
| Loader.HighlightIdempotent | js/data-loader.js:264-277 | highlighting the same results twice is highlighting them once |
| Loader.HeaderHighlightSticks | js/data-loader.js:279-295 | nothing ever clears a category header's highlight |
| Loader.SelectorExamples | js/data-loader.js:270 | a result named "CMAF" selects the header of category "CMAF Packaging"; key "HLS" is not selected by "hls"; an empty name selects nothing |
| Loader.HighlightTechnologyIsOneResult | js/data-loader.js:299-310 | `highlightTechnology(name)` highlights what a highlight pass over one result of that name does |
| Loader.RunsSearchExamples | js/data-loader.js:213 | one emoji is a query of `length` two and runs the search; one ASCII letter does not |
| Loader.StreamingStandardsDataLoader.constructor | js/data-loader.js:7-10 | a new loader has its document, no elements and a blank panel |
| Loader.StreamingStandardsDataLoader.RenderLayers | js/data-loader.js:53-63 | the page holds exactly the rendered elements of the document, all unstyled |
| Loader.StreamingStandardsDataLoader.CreateLayerElement | js/data-loader.js:65-94 | a layer's elements are its categories' elements in order |
| Loader.StreamingStandardsDataLoader.CreateCategoryElement | js/data-loader.js:96-138 | the header with the lower-cased category name, then one item per technology |
| Loader.StreamingStandardsDataLoader.SearchTechnologies | js/data-loader.js:224-243 | the nested loops return exactly the reference search result |
| Loader.StreamingStandardsDataLoader.SearchLayer | js/data-loader.js:228-239 | the matches of one layer, in order |
| Loader.StreamingStandardsDataLoader.SearchCategory | js/data-loader.js:229-238 | the matches of one category, in order, each with that category and layer |
| Loader.StreamingStandardsDataLoader.HideAllItems | js/data-loader.js:279-286 | every technology item dimmed; nothing else changes |
| Loader.StreamingStandardsDataLoader.ShowAllItems | js/data-loader.js:288-295 | every technology item shown; nothing else changes |
| Loader.StreamingStandardsDataLoader.HighlightMatching | js/data-loader.js:270-275 | every element the selector picks is highlighted; nothing else changes |
| Loader.StreamingStandardsDataLoader.HighlightSearchResults | js/data-loader.js:264-277 | hide all, then the highlight pass for each result in turn |
| Loader.StreamingStandardsDataLoader.DisplaySearchResults | js/data-loader.js:245-262 | no results: "No results found" and every item dimmed; otherwise the result lines and the highlight pass |
| Loader.StreamingStandardsDataLoader.OnSearchInput | js/data-loader.js:211-221 | a lower-cased query whose UTF-16 `length` is under two clears the panel and shows every item; a longer one runs the search and displays its results |
| Loader.StreamingStandardsDataLoader.HighlightTechnology | js/data-loader.js:299-310 | hide all, then highlight every element whose key contains the lower-cased name |

## Left out

- `loadData` (js/data-loader.js:12-24): the fetch is network I/O. The loader is built from an already parsed `Document`.
- `renderDiagram`, `renderHeader`, `renderWorkflows`, `renderSearch`: static markup and the missing-container and missing-data errors. `RenderLayers` models a page freshly cleared by `renderDiagram`.
- Tooltip markup, HTML templates, class names, colours and opacity strings. A style is one of `Unstyled`, `Shown`, `Dimmed` and `Highlighted`. A result line is kept as its `SearchResult`.
- Event-listener wiring and the `getElementById` lookups. The input handler is `OnSearchInput`, a method of the field's value.
- `window.highlightTechnology` when no loader exists, where it does nothing: it is modelled as a method of the loader.
- Quoting in the CSS selector: a name holding `"` or `\` would make `querySelectorAll` throw or match differently. The model reads the name as a plain substring.
- Loader.StreamingStandardsDataLoader.CreateCategoryElement: the header's key is written into the attribute literal `data-search="…"` of an `innerHTML` template (js/data-loader.js:100-101, 135), so the HTML parser decides it. A name holding `"` ends the attribute early: `Say "Hi"` gives the key `say `. A character reference is decoded: `R&amp;D` gives `r&d`. The model takes the key to be the lower-cased name exactly, so for such names it does not capture which headers the selector matches.
- HighlightTechnologyIsOneResult: a click passes the name through the literal `onclick="highlightTechnology('…')"` (js/data-loader.js:255). A name holding `'`, `\`, `"` or an HTML character reference does not reach `highlightTechnology` unchanged, or breaks the handler. The model assumes the name arrives as written.
- The loader works on a well-formed, typed document. The exceptions a malformed document raises inside the loader are not modelled. The validator works on untyped values and does model them.
- The prototype patch of `loadData` and `window.DataValidator` (js/validate-data.js:172-191): global glue and console logging.
- `isValidUrl` (`new URL`) and `JSON.parse`: foreign calls, taken as parameters.
- Unicode: `toLowerCase` lower-cases ASCII letters only. Strings are sequences of Unicode scalar values, so lone surrogates are not modelled. Apart from `length`, which counts UTF-16 units, positions count characters.
- JSON numbers are integers. Fractional numbers and their printing are not modelled.
- ToJsString: an integer of magnitude 10^21 or more prints in exponent form in JavaScript ("1e+21"), and one beyond 2^53 is rounded. The model prints every digit, so the text of an invalid-URL warning for such a url differs.
- Object identity: results hold values, so two equal technologies at different places are indistinguishable.
- Single-threaded event handling and the network race between loads are not modelled.
- start-local-server.py is not part of this model (an HTTP server and browser launcher).
