/** Per-file extraction of `returns` validators
    (src/cli/fns/fns/generate-z-schema/utils/extract-schema.ts): the exports of one
    Convex source file that are public queries exposing `exportReturns()` are looked up
    in the api tree and their returns JSON is parsed into a schema entry.

    The dynamic import is an input (None when it threw); `path.relative` is done by the
    caller. `findFunctionReference` comes from ./find-fn-ref, which is not part of this
    model: it is the parameter `findRef`, as are `getFunctionName` and `JSON.parse`
    (`parse`, None when it throws). */
module ExtractSchema {
  import opened Wrappers
  import opened JsValues
  import opened ExportScan
  import opened SchemaFile
  import GenerateZSchema

  /** `isConvexFn`: a truthy function or object with truthy `isQuery` and `isPublic`
      and a function-valued `exportReturns`. */
  predicate IsConvexFn(value: JsValue)
  {
    && Truthy(value) && (TypeOf(value) == "function" || TypeOf(value) == "object")
    && Truthy(GetProp(value, "isQuery")) && Truthy(GetProp(value, "isPublic"))
    && TypeOf(GetProp(value, "exportReturns")) == "function"
  }

  /** This check is the generator's `isConvexFn` plus the `exportReturns` test. */
  lemma IsConvexFnRefinesGenerator(value: JsValue)
    ensures IsConvexFn(value) <==>
              GenerateZSchema.IsConvexFn(value) && GetProp(value, "exportReturns").Fun?
  {
  }

  /** `fetchReturnsString`: `value.exportReturns?.()` when it yields a non-empty
      string. A missing member gives undefined, calling a non-function throws, and a
      throw is caught: all of these give None, as do non-strings and "". */
  function FetchReturnsString(value: JsValue): Option<string>
  {
    var f := GetProp(value, "exportReturns");
    if f.Undefined? || f.Null? || !f.Fun? then None
    else
      match f.call
      case Throws => None
      case Returns(result) => if result.Str? && |result.s| > 0 then Some(result.s) else None
  }

  /** Some string comes back exactly when `exportReturns` is a function whose call
      returns a non-empty string, and it is that string. */
  lemma FetchReturnsStringExactly(value: JsValue, s: string)
    ensures FetchReturnsString(value) == Some(s) <==>
              var f := GetProp(value, "exportReturns");
              f.Fun? && f.call == Returns(Str(s)) && s != ""
    ensures FetchReturnsString(value) != Some("")
  {
  }

  /** `relativePath.replace(/\.(ts|js)$/, "")`. */
  function StripSourceSuffix(relativePath: string): string
  {
    if EndsWith(relativePath, ".ts") || EndsWith(relativePath, ".js") then relativePath[..|relativePath| - 3]
    else relativePath
  }

  /** One trailing ".ts" or ".js" is removed, and only one. */
  lemma StripSourceSuffixInverse(p: string)
    ensures StripSourceSuffix(p + ".ts") == p && StripSourceSuffix(p + ".js") == p
    ensures StripSourceSuffix(p + ".js.ts") == p + ".js"
    ensures !EndsWith(p, ".ts") && !EndsWith(p, ".js") ==> StripSourceSuffix(p) == p
  {
    assert (p + ".ts")[|p|..] == ".ts" && (p + ".ts")[..|p|] == p;
    assert (p + ".js")[|p|..] == ".js" && (p + ".js")[..|p|] == p;
    assert p + ".js.ts" == (p + ".js") + ".ts";
    assert (p + ".js.ts")[|p| + 3..] == ".ts";
    assert (p + ".js.ts")[..|p| + 3] == p + ".js";
  }

  type FindRef = (JsValue, string, string) -> JsValue

  /** What one export contributes, the loop body's checks in their order: the
      predicate, a returns string, a reference, then a truthy parse. */
  function EntryFor(api: JsValue, modulePath: string, findRef: FindRef, getFunctionName: JsValue -> string,
                    parse: string -> Option<JsValue>, e: Export): Option<SchemaEntry<JsValue>>
  {
    if !IsConvexFn(e.value) then None
    else
      match FetchReturnsString(e.value)
      case None => None
      case Some(returnsString) =>
        var fnRef := findRef(api, modulePath, e.exportName);
        if !Truthy(fnRef) then None
        else
          var fnName := getFunctionName(fnRef);
          match parse(returnsString)
          case None => None
          case Some(returnsJson) =>
            if !Truthy(returnsJson) then None else Some(SchemaEntry(fnName, Obj(map["returns" := returnsJson], false)))
  }

  function Emit(api: JsValue, modulePath: string, findRef: FindRef, getFunctionName: JsValue -> string,
                parse: string -> Option<JsValue>): Export -> Option<SchemaEntry<JsValue>>
  {
    e => EntryFor(api, modulePath, findRef, getFunctionName, parse, e)
  }

  function Entries(api: JsValue, relativePath: string, imported: Option<seq<Export>>, findRef: FindRef,
                   getFunctionName: JsValue -> string, parse: string -> Option<JsValue>): seq<SchemaEntry<JsValue>>
  {
    match imported
    case None => []
    case Some(exports) => Kept(exports, Emit(api, StripSourceSuffix(relativePath), findRef, getFunctionName, parse))
  }

  /** `extractSchema(file, api, convexDir)`, with the import's outcome as `imported`. */
  method ExtractSchema(api: JsValue, relativePath: string, imported: Option<seq<Export>>, findRef: FindRef,
                       getFunctionName: JsValue -> string, parse: string -> Option<JsValue>)
    returns (entries: seq<SchemaEntry<JsValue>>)
    ensures entries == Entries(api, relativePath, imported, findRef, getFunctionName, parse)
  {
    entries := [];
    if imported.None? {
      return entries;
    }
    var exports := imported.value;
    var modulePath := StripSourceSuffix(relativePath);
    ghost var emit := Emit(api, modulePath, findRef, getFunctionName, parse);
    for i := 0 to |exports|
      invariant entries == Kept(exports[..i], emit)
    {
      KeptSnoc(exports, i, emit);
      var exportName := exports[i].exportName;
      var value := exports[i].value;
      if !IsConvexFn(value) {
        continue;
      }
      var returnsString := FetchReturnsString(value);
      if returnsString.None? {
        continue;
      }
      var fnRef := findRef(api, modulePath, exportName);
      if !Truthy(fnRef) {
        continue;
      }
      var fnName := getFunctionName(fnRef);
      var returnsValidatorJson := parse(returnsString.value);
      if returnsValidatorJson.None? || !Truthy(returnsValidatorJson.value) {
        continue;
      }
      entries := entries + [SchemaEntry(fnName, Obj(map["returns" := returnsValidatorJson.value], false))];
    }
    assert exports[..|exports|] == exports;
  }

  /** One export yields an entry exactly when it passes all four checks: it is a
      public query exposing `exportReturns`, which returns a non-empty string, a truthy
      reference is found for it, and the string parses to a truthy JSON value. The entry
      is the reference's name with `{ returns: <that value> }`. */
  lemma EntryForExactly(api: JsValue, modulePath: string, findRef: FindRef, getFunctionName: JsValue -> string,
                        parse: string -> Option<JsValue>, e: Export, y: SchemaEntry<JsValue>)
    ensures EntryFor(api, modulePath, findRef, getFunctionName, parse, e) == Some(y) <==>
              var fnRef := findRef(api, modulePath, e.exportName);
              && IsConvexFn(e.value) && FetchReturnsString(e.value).Some? && Truthy(fnRef)
              && parse(FetchReturnsString(e.value).value).Some?
              && Truthy(parse(FetchReturnsString(e.value).value).value)
              && y == SchemaEntry(getFunctionName(fnRef), Obj(map["returns" := parse(FetchReturnsString(e.value).value).value], false))
  {
    var returnsString := FetchReturnsString(e.value);
    if IsConvexFn(e.value) && returnsString.Some? {
      var fnRef := findRef(api, modulePath, e.exportName);
      assert EntryFor(api, modulePath, findRef, getFunctionName, parse, e) ==
               if !Truthy(fnRef) then None
               else match parse(returnsString.value)
                    case None => None
                    case Some(j) => if !Truthy(j) then None else Some(SchemaEntry(getFunctionName(fnRef), Obj(map["returns" := j], false)));
    }
  }

  /** A failed import gives no entry; otherwise the entries are exactly what the
      exports yield, never more entries than exports. */
  lemma EntriesExactly(api: JsValue, relativePath: string, imported: Option<seq<Export>>, findRef: FindRef,
                       getFunctionName: JsValue -> string, parse: string -> Option<JsValue>)
    ensures imported.None? ==> Entries(api, relativePath, imported, findRef, getFunctionName, parse) == []
    ensures imported.Some? ==> |Entries(api, relativePath, imported, findRef, getFunctionName, parse)| <= |imported.value|
    ensures imported.Some? ==> forall y :: y in Entries(api, relativePath, imported, findRef, getFunctionName, parse) <==>
              exists i :: 0 <= i < |imported.value| &&
                EntryFor(api, StripSourceSuffix(relativePath), findRef, getFunctionName, parse, imported.value[i]) == Some(y)
  {
    if imported.Some? {
      var xs := imported.value;
      var mp := StripSourceSuffix(relativePath);
      var emit := Emit(api, mp, findRef, getFunctionName, parse);
      assert Entries(api, relativePath, imported, findRef, getFunctionName, parse) == Kept(xs, emit);
      KeptLength(xs, emit);
      forall y ensures y in Kept(xs, emit) <==>
                         exists i :: 0 <= i < |xs| && EntryFor(api, mp, findRef, getFunctionName, parse, xs[i]) == Some(y)
      {
        KeptMember(xs, emit, y);
        if y in Kept(xs, emit) {
          var i :| 0 <= i < |xs| && emit(xs[i]) == Some(y);
          EmitApply(api, mp, findRef, getFunctionName, parse, xs[i]);
        }
        if exists i :: 0 <= i < |xs| && EntryFor(api, mp, findRef, getFunctionName, parse, xs[i]) == Some(y) {
          var i :| 0 <= i < |xs| && EntryFor(api, mp, findRef, getFunctionName, parse, xs[i]) == Some(y);
          EmitApply(api, mp, findRef, getFunctionName, parse, xs[i]);
        }
      }
    }
  }

  lemma EmitApply(api: JsValue, modulePath: string, findRef: FindRef, getFunctionName: JsValue -> string,
                  parse: string -> Option<JsValue>, e: Export)
    ensures Emit(api, modulePath, findRef, getFunctionName, parse)(e) == EntryFor(api, modulePath, findRef, getFunctionName, parse, e)
  {
  }

  /** Exports come out in order: the entries of a module whose exports are a then b are
      the entries of a followed by those of b. */
  lemma EntriesInExportOrder(api: JsValue, relativePath: string, a: seq<Export>, b: seq<Export>, findRef: FindRef,
                             getFunctionName: JsValue -> string, parse: string -> Option<JsValue>)
    ensures Entries(api, relativePath, Some(a + b), findRef, getFunctionName, parse) ==
              Entries(api, relativePath, Some(a), findRef, getFunctionName, parse) +
              Entries(api, relativePath, Some(b), findRef, getFunctionName, parse)
  {
    var emit := Emit(api, StripSourceSuffix(relativePath), findRef, getFunctionName, parse);
    KeptAppend(a, b, emit);
    assert Entries(api, relativePath, Some(a + b), findRef, getFunctionName, parse) == Kept(a + b, emit);
    assert Entries(api, relativePath, Some(a), findRef, getFunctionName, parse) == Kept(a, emit);
    assert Entries(api, relativePath, Some(b), findRef, getFunctionName, parse) == Kept(b, emit);
  }

  /** A parse failure skips only that export. */
  lemma ParseFailureSkipsOnlyThatExport(api: JsValue, relativePath: string, a: seq<Export>, e: Export, b: seq<Export>,
                                        findRef: FindRef, getFunctionName: JsValue -> string, parse: string -> Option<JsValue>)
    requires FetchReturnsString(e.value).Some? && parse(FetchReturnsString(e.value).value).None?
    ensures Entries(api, relativePath, Some(a + [e] + b), findRef, getFunctionName, parse) ==
              Entries(api, relativePath, Some(a), findRef, getFunctionName, parse) +
              Entries(api, relativePath, Some(b), findRef, getFunctionName, parse)
  {
    var emit := Emit(api, StripSourceSuffix(relativePath), findRef, getFunctionName, parse);
    EmitApply(api, StripSourceSuffix(relativePath), findRef, getFunctionName, parse, e);
    KeptSkip(a, e, b, emit);
  }
}
