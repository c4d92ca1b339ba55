/** The schema validator for the streaming-standards document (class `DataValidator`).

    `Log` and the functions ending in `Log` are the reference semantics: for each node of the
    document they give the errors and warnings its check appends, in order, and the exception
    that ends the walk early when a node is null (reading a property of null throws a TypeError).
    The class `DataValidator` is the imperative validator: its methods append to the `errors`
    and `warnings` fields in nested loops, and each method is proved to append exactly what the
    reference semantics says. */
module Validate {
  import opened Strings
  import opened JsValues
  import opened Sequences

  // ---------------------------------------------------------------------------------------
  // Where a diagnostic points, and the diagnostic texts

  /** The index path of a node below the layers array. */
  datatype Path =
    | LayerAt(layer: nat)
    | CategoryAt(layer: nat, category: nat)
    | TechnologyAt(layer: nat, category: nat, technology: nat)
    | LinkAt(layer: nat, category: nat, technology: nat, link: nat)

  /** The owner of a required field: the metadata section, or a node of the layer tree. */
  datatype Subject = MetadataSection | Node(path: Path)

  function Where(p: Path): string {
    match p
    case LayerAt(l) =>
      "Layer " + NatToString(l)
    case CategoryAt(l, c) =>
      "Layer " + NatToString(l) + ", Category " + NatToString(c)
    case TechnologyAt(l, c, t) =>
      "Layer " + NatToString(l) + ", Category " + NatToString(c) + ", Technology " + NatToString(t)
    case LinkAt(l, c, t, k) =>
      "Layer " + NatToString(l) + ", Category " + NatToString(c) + ", Technology " + NatToString(t)
      + ", Link " + NatToString(k)
  }

  const MetadataFields: seq<string> := ["title", "subtitle", "version"]
  const LayerFields: seq<string> := ["id", "name", "subtitle", "description", "keyFunctions", "categories"]
  const CategoryFields: seq<string> :=
    ["id", "name", "description", "keyOrganizations", "researchAreas", "links", "technologies"]
  const TechnologyFields: seq<string> := ["name", "description", "searchTerms"]

  const MissingMetadataMessage: string := "Missing 'metadata' section"
  const MissingLayersMessage: string := "Missing or invalid 'layers' array"

  function MissingFieldMessage(s: Subject, field: string): string {
    match s
    case MetadataSection => "Missing required metadata field: '" + field + "'"
    case Node(p) => Where(p) + ": Missing required field '" + field + "'"
  }

  function SearchTermsMessage(p: Path): string {
    Where(p) + ": 'searchTerms' must be an array"
  }

  function TextOrUrlMessage(p: Path): string {
    Where(p) + ": Missing 'text' or 'url'"
  }

  function InvalidUrlMessage(p: Path, url: string): string {
    Where(p) + ": URL may be invalid: " + url
  }

  // ---------------------------------------------------------------------------------------
  // Reference semantics

  /** What a check contributes: the errors and warnings it appends, in order, and the
      exception it ends with, if any. */
  datatype Log = Log(errors: seq<string>, warnings: seq<string>, thrown: Option<JsError>)

  const Clean: Log := Log([], [], None)

  function Error(message: string): Log {
    Log([message], [], None)
  }

  function Warning(message: string): Log {
    Log([], [message], None)
  }

  function Raise(e: JsError): Log {
    Log([], [], Some(e))
  }

  /** Running `a` and then `b`: `b` does not run once `a` has thrown. */
  function Then(a: Log, b: Log): Log {
    if a.thrown.Some? then a else Log(a.errors + b.errors, a.warnings + b.warnings, b.thrown)
  }

  /** One iteration of `requiredFields.forEach(field => { if (!v[field]) errors.push(...) })`. */
  function FieldCheck(v: Value, field: string, s: Subject): Log {
    match Get(v, field)
    case Abrupt(e) => Raise(e)
    case Normal(x) => if Truthy(x) then Clean else Error(MissingFieldMessage(s, field))
  }

  /** The required-field loop over the first `n` fields. It never warns, and it throws exactly
      when the node is null or undefined and there is a field to read. */
  function FieldsLog(v: Value, fields: seq<string>, n: nat, s: Subject): (r: Log)
    requires n <= |fields|
    ensures r.warnings == []
    ensures r.thrown.Some? <==> IsNullish(v) && n > 0
  {
    if n == 0 then Clean else Then(FieldsLog(v, fields, n - 1, s), FieldCheck(v, fields[n - 1], s))
  }

  /** `v.key && Array.isArray(v.key)`, giving the array's items. */
  function ArrayProp(v: Value, key: string): Option<seq<Value>> {
    match Get(v, key)
    case Abrupt(_) => None
    case Normal(x) => if Truthy(x) && x.Arr? then Some(x.items) else None
  }

  function MetadataLog(metadata: Value): Log {
    if !Truthy(metadata) then Error(MissingMetadataMessage)
    else FieldsLog(metadata, MetadataFields, |MetadataFields|, MetadataSection)
  }

  /** The body of one of the nested `forEach` loops: which node kind it checks, and the indices
      of the enclosing nodes. */
  datatype Step =
    | EachLayer
    | EachCategory(layer: nat)
    | EachTechnology(layer: nat, category: nat)
    | EachLink(layer: nat, category: nat, technology: nat)

  function Depth(step: Step): nat {
    match step
    case EachLayer => 4
    case EachCategory(_) => 3
    case EachTechnology(_, _) => 2
    case EachLink(_, _, _) => 1
  }

  /** `items.forEach((item, index) => ...)` over the first `n` items, with `step` as the body. */
  function ForEach(items: seq<Value>, n: nat, step: Step, isValidUrl: string -> bool): Log
    requires n <= |items|
    decreases Depth(step), 4 + n
  {
    if n == 0 then Clean
    else Then(ForEach(items, n - 1, step, isValidUrl), Run(step, items[n - 1], n - 1, isValidUrl))
  }

  /** One execution of a loop body on the item `v` at index `i`. */
  function Run(step: Step, v: Value, i: nat, isValidUrl: string -> bool): Log
    decreases Depth(step), 3
  {
    match step
    case EachLayer => LayerLog(v, i, isValidUrl)
    case EachCategory(l) => CategoryLog(v, l, i, isValidUrl)
    case EachTechnology(l, c) => TechnologyLog(v, l, c, i, isValidUrl)
    case EachLink(l, c, t) => LinkLog(v, l, c, t, i, isValidUrl)
  }

  /** `if (link.url && !this.isValidUrl(link.url)) warnings.push(...)`. A url whose string
      conversion throws makes `isValidUrl` catch and answer false, and then the same conversion
      in the warning's template literal throws out of the validator. */
  function UrlLog(url: Value, at: Path, isValidUrl: string -> bool): Log {
    if !Truthy(url) then Clean
    else
      match ToJsString(url)
      case Abrupt(e) => Raise(e)
      case Normal(s) => if isValidUrl(s) then Clean else Warning(InvalidUrlMessage(at, s))
  }

  /** `validateLink`. */
  function LinkLog(link: Value, l: nat, c: nat, t: nat, k: nat, isValidUrl: string -> bool): Log {
    match Get(link, "text")
    case Abrupt(e) => Raise(e)
    case Normal(text) =>
      var url := Prop(link, "url");
      var at := LinkAt(l, c, t, k);
      Then(if !Truthy(text) || !Truthy(url) then Error(TextOrUrlMessage(at)) else Clean,
           UrlLog(url, at, isValidUrl))
  }

  function SearchTermsLog(tech: Value, at: Path): Log {
    match Get(tech, "searchTerms")
    case Abrupt(e) => Raise(e)
    case Normal(terms) => if Truthy(terms) && !terms.Arr? then Error(SearchTermsMessage(at)) else Clean
  }

  function LinksLog(tech: Value, l: nat, c: nat, t: nat, isValidUrl: string -> bool): Log
    decreases 2, 1
  {
    match ArrayProp(tech, "links")
    case None => Clean
    case Some(links) => ForEach(links, |links|, EachLink(l, c, t), isValidUrl)
  }

  /** `validateTechnology`. */
  function TechnologyLog(tech: Value, l: nat, c: nat, t: nat, isValidUrl: string -> bool): Log
    decreases 2, 2
  {
    var at := TechnologyAt(l, c, t);
    Then(Then(FieldsLog(tech, TechnologyFields, |TechnologyFields|, Node(at)), SearchTermsLog(tech, at)),
         LinksLog(tech, l, c, t, isValidUrl))
  }

  function TechnologiesLog(category: Value, l: nat, c: nat, isValidUrl: string -> bool): Log
    decreases 3, 1
  {
    match ArrayProp(category, "technologies")
    case None => Clean
    case Some(techs) => ForEach(techs, |techs|, EachTechnology(l, c), isValidUrl)
  }

  /** `validateCategory`; the category's own `links` are only required, never walked. */
  function CategoryLog(category: Value, l: nat, c: nat, isValidUrl: string -> bool): Log
    decreases 3, 2
  {
    Then(FieldsLog(category, CategoryFields, |CategoryFields|, Node(CategoryAt(l, c))),
         TechnologiesLog(category, l, c, isValidUrl))
  }

  function CategoriesLog(layer: Value, l: nat, isValidUrl: string -> bool): Log
    decreases 4, 1
  {
    match ArrayProp(layer, "categories")
    case None => Clean
    case Some(categories) => ForEach(categories, |categories|, EachCategory(l), isValidUrl)
  }

  /** `validateLayer`. */
  function LayerLog(layer: Value, l: nat, isValidUrl: string -> bool): Log
    decreases 4, 2
  {
    Then(FieldsLog(layer, LayerFields, |LayerFields|, Node(LayerAt(l))), CategoriesLog(layer, l, isValidUrl))
  }

  /** The layers check of `validateData`, on a document that is neither null nor undefined. */
  function LayersLog(data: Value, isValidUrl: string -> bool): Log
    requires !IsNullish(data)
  {
    var layers := Prop(data, "layers");
    if !Truthy(layers) || !layers.Arr? then Error(MissingLayersMessage)
    else ForEach(layers.items, |layers.items|, EachLayer, isValidUrl)
  }

  /** Everything `validateData(data)` leaves in `errors` and `warnings`, and what it throws. */
  function Validation(data: Value, isValidUrl: string -> bool): Log {
    match Get(data, "metadata")
    case Abrupt(e) => Raise(e)
    case Normal(metadata) => Then(MetadataLog(metadata), LayersLog(data, isValidUrl))
  }

  /** The completion of `validateData`: its thrown exception, or `errors.length === 0`. */
  function Outcome(log: Log): Completion<bool> {
    if log.thrown.Some? then Abrupt(log.thrown.value) else Normal(log.errors == [])
  }

  /** Once the first `i` fields have thrown, later fields add nothing. */
  lemma {:induction false} FieldsLogStops(v: Value, fields: seq<string>, i: nat, n: nat, s: Subject)
    requires i <= n <= |fields| && FieldsLog(v, fields, i, s).thrown.Some?
    ensures FieldsLog(v, fields, n, s) == FieldsLog(v, fields, i, s)
    decreases n
  {
    if n > i {
      FieldsLogStops(v, fields, i, n - 1, s);
    }
  }

  /** On a null or undefined node, reading the first required field throws, and nothing is reported. */
  lemma NullNodeThrows(v: Value, fields: seq<string>, s: Subject)
    requires IsNullish(v) && |fields| > 0
    ensures FieldsLog(v, fields, |fields|, s) == Raise(TypeError(ReadFailure(v, fields[0])))
  {
    assert FieldsLog(v, fields, 1, s) == Then(FieldsLog(v, fields, 0, s), FieldCheck(v, fields[0], s));
    FieldsLogStops(v, fields, 1, |fields|, s);
  }

  /** Once the first `i` steps have thrown, later steps add nothing. */
  lemma {:induction false} ForEachStops(items: seq<Value>, i: nat, n: nat, step: Step, isValidUrl: string -> bool)
    requires i <= n <= |items| && ForEach(items, i, step, isValidUrl).thrown.Some?
    ensures ForEach(items, n, step, isValidUrl) == ForEach(items, i, step, isValidUrl)
    decreases n
  {
    if n > i {
      ForEachStops(items, i, n - 1, step, isValidUrl);
      assert ForEach(items, n, step, isValidUrl)
          == Then(ForEach(items, n - 1, step, isValidUrl), Run(step, items[n - 1], n - 1, isValidUrl));
    }
  }

  /** One more required field on a node that has not thrown appends that field's check. */
  lemma FieldsLogNext(v: Value, fields: seq<string>, n: nat, s: Subject)
    requires n < |fields| && FieldsLog(v, fields, n, s).thrown == None
    ensures var before, last := FieldsLog(v, fields, n, s), FieldCheck(v, fields[n], s);
      FieldsLog(v, fields, n + 1, s) == Log(before.errors + last.errors, [], last.thrown)
  {
  }

  /** One more step of a loop that has not thrown appends that step's diagnostics. */
  lemma ForEachNext(items: seq<Value>, n: nat, step: Step, isValidUrl: string -> bool)
    requires n < |items| && ForEach(items, n, step, isValidUrl).thrown == None
    ensures var before, last := ForEach(items, n, step, isValidUrl), Run(step, items[n], n, isValidUrl);
      ForEach(items, n + 1, step, isValidUrl)
      == Log(before.errors + last.errors, before.warnings + last.warnings, last.thrown)
  {
  }

  /** `validateData` unfolded one level: the metadata checks, then the layers check. */
  lemma ValidationParts(data: Value, isValidUrl: string -> bool)
    ensures IsNullish(data) ==> Validation(data, isValidUrl) == Raise(TypeError(ReadFailure(data, "metadata")))
    ensures !IsNullish(data) ==>
      var metadata, layers := MetadataLog(Prop(data, "metadata")), LayersLog(data, isValidUrl);
      metadata.warnings == [] && metadata.thrown == None &&
      Validation(data, isValidUrl) == Log(metadata.errors + layers.errors, layers.warnings, layers.thrown)
  {
  }

  /** `validateLayer` unfolded one level: the required fields, then the categories. */
  lemma LayerLogParts(layer: Value, l: nat, isValidUrl: string -> bool)
    ensures var fields := FieldsLog(layer, LayerFields, |LayerFields|, Node(LayerAt(l)));
      var categories := CategoriesLog(layer, l, isValidUrl);
      LayerLog(layer, l, isValidUrl) ==
        if IsNullish(layer) then fields
        else Log(fields.errors + categories.errors, categories.warnings, categories.thrown)
  {
  }

  /** `validateCategory` unfolded one level: the required fields, then the technologies. */
  lemma CategoryLogParts(category: Value, l: nat, c: nat, isValidUrl: string -> bool)
    ensures var fields := FieldsLog(category, CategoryFields, |CategoryFields|, Node(CategoryAt(l, c)));
      var technologies := TechnologiesLog(category, l, c, isValidUrl);
      CategoryLog(category, l, c, isValidUrl) ==
        if IsNullish(category) then fields
        else Log(fields.errors + technologies.errors, technologies.warnings, technologies.thrown)
  {
  }

  /** `validateTechnology` unfolded one level: the required fields, the `searchTerms` check, then the links. */
  lemma TechnologyLogParts(tech: Value, l: nat, c: nat, t: nat, isValidUrl: string -> bool)
    ensures var fields := FieldsLog(tech, TechnologyFields, |TechnologyFields|, Node(TechnologyAt(l, c, t)));
      var links := LinksLog(tech, l, c, t, isValidUrl);
      TechnologyLog(tech, l, c, t, isValidUrl) ==
        if IsNullish(tech) then fields
        else Log(fields.errors + SearchTermsLog(tech, TechnologyAt(l, c, t)).errors + links.errors,
                 links.warnings, links.thrown)
  {
  }

  // ---------------------------------------------------------------------------------------
  // The report

  datatype Summary = Summary(totalErrors: nat, totalWarnings: nat, message: string)
  datatype Report = Report(isValid: bool, errors: seq<string>, warnings: seq<string>, summary: Summary)

  const CrossMark: char := '\U{274C}'
  const WarningSign: char := '\U{26A0}'
  const CheckMark: char := '\U{2705}'
  const EmojiPresentation: char := '\U{FE0F}'

  /** `getValidationReport()` over a pair of error and warning lists: the summary's icon tells
      failure, a pass with warnings or a clean pass, and the counts are the list lengths. */
  function ReportOf(errors: seq<string>, warnings: seq<string>): (r: Report)
    ensures r.errors == errors && r.warnings == warnings
    ensures r.isValid <==> |errors| == 0
    ensures r.summary.totalErrors == |errors| && r.summary.totalWarnings == |warnings|
    ensures |r.summary.message| > 0
    ensures r.summary.message[0] == CrossMark <==> !r.isValid
    ensures r.summary.message[0] == WarningSign <==> r.isValid && |warnings| > 0
    ensures r.summary.message[0] == CheckMark <==> r.isValid && |warnings| == 0
  {
    var message :=
      if |errors| > 0 then [CrossMark] + " Validation failed with " + NatToString(|errors|) + " error(s)"
      else if |warnings| > 0 then
        [WarningSign, EmojiPresentation] + " Validation passed with " + NatToString(|warnings|) + " warning(s)"
      else [CheckMark] + " Validation passed successfully!";
    Report(|errors| == 0, errors, warnings, Summary(|errors|, |warnings|, message))
  }

  /** What `validateJsonString` returns from its `catch`: parsing, or validating, threw. */
  function Rejection(message: string): JsonCheck {
    JsonCheck(false, None, Some(message),
      Report(false, ["JSON parsing error: " + message], [],
        Summary(1, 0, [CrossMark] + " Invalid JSON format: " + message)))
  }

  /** The object `validateJsonString` returns; `data` and `error` are absent (`None`) where it omits them. */
  datatype JsonCheck = JsonCheck(isValid: bool, data: Option<Value>, error: Option<string>, report: Report)

  // ---------------------------------------------------------------------------------------
  // The validator object

  class DataValidator {
    var errors: seq<string>
    var warnings: seq<string>
    /** Whether `new URL(s)` accepts `s`; the URL parser is not part of this model. */
    const isValidUrl: string -> bool

    constructor (isValidUrl: string -> bool)
      ensures errors == [] && warnings == [] && this.isValidUrl == isValidUrl
    {
      errors := [];
      warnings := [];
      this.isValidUrl := isValidUrl;
    }

    /** `validateData`: clears both lists, then fills them from `data` alone. */
    method ValidateData(data: Value) returns (r: Completion<bool>)
      modifies this
      ensures errors == Validation(data, isValidUrl).errors
      ensures warnings == Validation(data, isValidUrl).warnings
      ensures r == Outcome(Validation(data, isValidUrl))
    {
      errors := [];
      warnings := [];
      ValidationParts(data, isValidUrl);
      var metadata := Get(data, "metadata");
      if metadata.Abrupt? {
        return Abrupt(metadata.error);
      }
      ValidateMetadata(metadata.value);
      assert errors == MetadataLog(metadata.value).errors;
      var layers := Prop(data, "layers");
      if !Truthy(layers) || !layers.Arr? {
        errors := errors + [MissingLayersMessage];
        assert LayersLog(data, isValidUrl) == Error(MissingLayersMessage);
        return Normal(false);
      }
      assert LayersLog(data, isValidUrl) == ForEach(layers.items, |layers.items|, EachLayer, isValidUrl);
      var exc := ValidateEach(layers.items, EachLayer);
      if exc.Some? {
        return Abrupt(exc.value);
      }
      return Normal(|errors| == 0);
    }

    method ValidateMetadata(metadata: Value)
      modifies this
      ensures errors == old(errors) + MetadataLog(metadata).errors
      ensures warnings == old(warnings) && MetadataLog(metadata).warnings == []
      ensures MetadataLog(metadata).thrown == None
    {
      if !Truthy(metadata) {
        errors := errors + [MissingMetadataMessage];
        return;
      }
      var _ := CheckRequiredFields(metadata, MetadataFields, MetadataSection);
    }

    /** The `requiredFields.forEach` loop shared by every node kind. */
    method CheckRequiredFields(v: Value, fields: seq<string>, s: Subject) returns (exc: Option<JsError>)
      modifies this
      ensures errors == old(errors) + FieldsLog(v, fields, |fields|, s).errors
      ensures warnings == old(warnings)
      ensures exc == FieldsLog(v, fields, |fields|, s).thrown
    {
      var i := 0;
      while i < |fields|
        invariant 0 <= i <= |fields|
        invariant errors == old(errors) + FieldsLog(v, fields, i, s).errors
        invariant warnings == old(warnings)
        invariant FieldsLog(v, fields, i, s).thrown == None
      {
        ghost var done := FieldsLog(v, fields, i, s);
        exc := CheckField(v, fields[i], s);
        FieldsLogNext(v, fields, i, s);
        AppendAssoc(old(errors), done.errors, FieldCheck(v, fields[i], s).errors);
        if exc.Some? {
          NullNodeThrows(v, fields, s);
          return;
        }
        i := i + 1;
      }
      return None;
    }

    /** The body of the required-field loop: `if (!v[field]) errors.push(...)`. */
    method CheckField(v: Value, field: string, s: Subject) returns (exc: Option<JsError>)
      modifies this
      ensures errors == old(errors) + FieldCheck(v, field, s).errors
      ensures warnings == old(warnings)
      ensures exc == FieldCheck(v, field, s).thrown
    {
      var x := Get(v, field);
      if x.Abrupt? {
        return Some(x.error);
      }
      if !Truthy(x.value) {
        errors := errors + [MissingFieldMessage(s, field)];
      }
      return None;
    }

    /** One of the nested `forEach` loops over `items`, with `step` as its body; it stops at the
        first exception. */
    method ValidateEach(items: seq<Value>, step: Step) returns (exc: Option<JsError>)
      modifies this
      ensures errors == old(errors) + ForEach(items, |items|, step, isValidUrl).errors
      ensures warnings == old(warnings) + ForEach(items, |items|, step, isValidUrl).warnings
      ensures exc == ForEach(items, |items|, step, isValidUrl).thrown
      decreases Depth(step), 2
    {
      var i := 0;
      while i < |items|
        invariant 0 <= i <= |items|
        invariant errors == old(errors) + ForEach(items, i, step, isValidUrl).errors
        invariant warnings == old(warnings) + ForEach(items, i, step, isValidUrl).warnings
        invariant ForEach(items, i, step, isValidUrl).thrown == None
      {
        ghost var done := ForEach(items, i, step, isValidUrl);
        ghost var last := Run(step, items[i], i, isValidUrl);
        ghost var next := ForEach(items, i + 1, step, isValidUrl);
        ForEachNext(items, i, step, isValidUrl);
        assert next == Log(done.errors + last.errors, done.warnings + last.warnings, last.thrown);
        exc := ValidateItem(step, items[i], i);
        AppendAssoc(old(errors), done.errors, last.errors);
        AppendAssoc(old(warnings), done.warnings, last.warnings);
        assert errors == old(errors) + next.errors && warnings == old(warnings) + next.warnings;
        if exc.Some? {
          ForEachStops(items, i + 1, |items|, step, isValidUrl);
          return;
        }
        i := i + 1;
      }
      return None;
    }

    /** One execution of a loop body: the validate method for the kind of node `step` walks. */
    method ValidateItem(step: Step, v: Value, i: nat) returns (exc: Option<JsError>)
      modifies this
      ensures errors == old(errors) + Run(step, v, i, isValidUrl).errors
      ensures warnings == old(warnings) + Run(step, v, i, isValidUrl).warnings
      ensures exc == Run(step, v, i, isValidUrl).thrown
      decreases Depth(step), 1
    {
      match step
      case EachLayer => exc := ValidateLayer(v, i);
      case EachCategory(l) => exc := ValidateCategory(v, l, i);
      case EachTechnology(l, c) => exc := ValidateTechnology(v, l, c, i);
      case EachLink(l, c, t) => exc := ValidateLink(v, l, c, t, i);
    }

    method ValidateLayer(layer: Value, l: nat) returns (exc: Option<JsError>)
      modifies this
      ensures errors == old(errors) + LayerLog(layer, l, isValidUrl).errors
      ensures warnings == old(warnings) + LayerLog(layer, l, isValidUrl).warnings
      ensures exc == LayerLog(layer, l, isValidUrl).thrown
      decreases Depth(EachLayer), 0
    {
      LayerLogParts(layer, l, isValidUrl);
      exc := CheckRequiredFields(layer, LayerFields, Node(LayerAt(l)));
      if exc.Some? {
        return;
      }
      var categories := ArrayProp(layer, "categories");
      if categories.Some? {
        exc := ValidateEach(categories.value, EachCategory(l));
      }
      AppendAssoc(old(errors), FieldsLog(layer, LayerFields, |LayerFields|, Node(LayerAt(l))).errors,
                  CategoriesLog(layer, l, isValidUrl).errors);
    }

    method ValidateCategory(category: Value, l: nat, c: nat) returns (exc: Option<JsError>)
      modifies this
      ensures errors == old(errors) + CategoryLog(category, l, c, isValidUrl).errors
      ensures warnings == old(warnings) + CategoryLog(category, l, c, isValidUrl).warnings
      ensures exc == CategoryLog(category, l, c, isValidUrl).thrown
      decreases Depth(EachCategory(l)), 0
    {
      CategoryLogParts(category, l, c, isValidUrl);
      exc := CheckRequiredFields(category, CategoryFields, Node(CategoryAt(l, c)));
      if exc.Some? {
        return;
      }
      var technologies := ArrayProp(category, "technologies");
      if technologies.Some? {
        exc := ValidateEach(technologies.value, EachTechnology(l, c));
      }
      AppendAssoc(old(errors), FieldsLog(category, CategoryFields, |CategoryFields|, Node(CategoryAt(l, c))).errors,
                  TechnologiesLog(category, l, c, isValidUrl).errors);
    }

    method ValidateTechnology(tech: Value, l: nat, c: nat, t: nat) returns (exc: Option<JsError>)
      modifies this
      ensures errors == old(errors) + TechnologyLog(tech, l, c, t, isValidUrl).errors
      ensures warnings == old(warnings) + TechnologyLog(tech, l, c, t, isValidUrl).warnings
      ensures exc == TechnologyLog(tech, l, c, t, isValidUrl).thrown
      decreases Depth(EachTechnology(l, c)), 0
    {
      var at := TechnologyAt(l, c, t);
      TechnologyLogParts(tech, l, c, t, isValidUrl);
      exc := CheckRequiredFields(tech, TechnologyFields, Node(at));
      if exc.Some? {
        return;
      }
      ghost var fields := FieldsLog(tech, TechnologyFields, |TechnologyFields|, Node(at)).errors;
      var terms := Prop(tech, "searchTerms");
      if Truthy(terms) && !terms.Arr? {
        errors := errors + [SearchTermsMessage(at)];
      }
      ghost var before := errors;
      assert before == old(errors) + fields + SearchTermsLog(tech, at).errors;
      var links := ArrayProp(tech, "links");
      if links.Some? {
        exc := ValidateEach(links.value, EachLink(l, c, t));
      }
      assert errors == before + LinksLog(tech, l, c, t, isValidUrl).errors;
      AppendAssoc4(old(errors), FieldsLog(tech, TechnologyFields, |TechnologyFields|, Node(at)).errors,
                   SearchTermsLog(tech, at).errors, LinksLog(tech, l, c, t, isValidUrl).errors);
    }

    method ValidateLink(link: Value, l: nat, c: nat, t: nat, k: nat) returns (exc: Option<JsError>)
      modifies this
      ensures errors == old(errors) + LinkLog(link, l, c, t, k, isValidUrl).errors
      ensures warnings == old(warnings) + LinkLog(link, l, c, t, k, isValidUrl).warnings
      ensures exc == LinkLog(link, l, c, t, k, isValidUrl).thrown
      decreases Depth(EachLink(l, c, t)), 0
    {
      var text := Get(link, "text");
      if text.Abrupt? {
        return Some(text.error);
      }
      var url := Prop(link, "url");
      var at := LinkAt(l, c, t, k);
      if !Truthy(text.value) || !Truthy(url) {
        errors := errors + [TextOrUrlMessage(at)];
      }
      if Truthy(url) {
        var printed := ToJsString(url);
        if printed.Abrupt? {
          return Some(printed.error);
        }
        if !isValidUrl(printed.value) {
          warnings := warnings + [InvalidUrlMessage(at, printed.value)];
        }
      }
      return None;
    }

    function GetValidationReport(): Report
      reads this
    {
      ReportOf(errors, warnings)
    }

    /** `DataValidator.validateJsonString`: parse, validate with a fresh validator, and turn an
        exception from either step into a one-error report. */
    static method ValidateJsonString(jsonString: string, parse: string -> Completion<Value>,
                                     isValidUrl: string -> bool) returns (r: JsonCheck)
      ensures parse(jsonString).Abrupt? ==> r == Rejection(parse(jsonString).error.message)
      ensures parse(jsonString).Normal? ==>
        var log := Validation(parse(jsonString).value, isValidUrl);
        r == if log.thrown.Some? then Rejection(log.thrown.value.message)
             else JsonCheck(log.errors == [], Some(parse(jsonString).value), None, ReportOf(log.errors, log.warnings))
      ensures r.isValid == r.report.isValid
      ensures r.error.Some? <==> r.data.None?
      ensures r.error.Some? ==>
        !r.isValid && |r.report.errors| == 1 && r.report.warnings == []
        && r.report.summary.totalErrors == 1 && r.report.summary.totalWarnings == 0
    {
      var parsed := parse(jsonString);
      if parsed.Abrupt? {
        return Rejection(parsed.error.message);
      }
      var validator := new DataValidator(isValidUrl);
      var isValid := validator.ValidateData(parsed.value);
      if isValid.Abrupt? {
        return Rejection(isValid.error.message);
      }
      r := JsonCheck(isValid.value, Some(parsed.value), None, validator.GetValidationReport());
    }
  }
}
