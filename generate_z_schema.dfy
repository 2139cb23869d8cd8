/** The Zod-schema generator script (src/cli/fns/fns/generate-z-schema.ts): for every
    Convex source file it finds the exports carrying a `__zReturn` Zod schema, looks
    each one up in the generated `api` tree to get its function name, merges the
    entries by name and writes `convex/_generated/schemaMap.js`.

    Module loading, globbing, `path.relative`, `path.join`, `path.resolve`, the file
    writes and the warnings printed are inputs, parameters or results here;
    `getFunctionName`, `ZOD_JSON.zodToJson` and `JSON.stringify` are parameters. */
module GenerateZSchema {
  import opened Wrappers
  import opened JsValues
  import opened ExportScan
  import opened SchemaFile
  import SchemaMap

  // ---------------------------------------------------------------------------------
  // `modulePath.split(/[\\/]/).filter(Boolean)`

  predicate IsSeparator(c: char)
  {
    c == '/' || c == '\\'
  }

  /** `s.split(/[\\/]/)`: the pieces between separators, empty pieces included. */
  function SplitOnSeparators(s: string): (pieces: seq<string>)
    ensures |pieces| >= 1
  {
    if s == [] then [""]
    else
      var rest := SplitOnSeparators(s[1..]);
      if IsSeparator(s[0]) then [""] + rest else [[s[0]] + rest[0]] + rest[1..]
  }

  /** `.filter(Boolean)`: the non-empty strings, in order. */
  function NonEmpty(pieces: seq<string>): seq<string>
  {
    if pieces == [] then [] else (if pieces[0] != "" then [pieces[0]] else []) + NonEmpty(pieces[1..])
  }

  function Segments(modulePath: string): seq<string>
  {
    NonEmpty(SplitOnSeparators(modulePath))
  }

  predicate IsSegment(p: string)
  {
    p != "" && forall i :: 0 <= i < |p| ==> !IsSeparator(p[i])
  }

  lemma {:induction false} SplitPiecesHaveNoSeparator(s: string)
    ensures forall k, i :: 0 <= k < |SplitOnSeparators(s)| && 0 <= i < |SplitOnSeparators(s)[k]| ==>
              !IsSeparator(SplitOnSeparators(s)[k][i])
    decreases |s|
  {
    if s != [] {
      SplitPiecesHaveNoSeparator(s[1..]);
      var rest := SplitOnSeparators(s[1..]);
      if !IsSeparator(s[0]) {
        var pieces := [[s[0]] + rest[0]] + rest[1..];
        assert SplitOnSeparators(s) == pieces;
        forall k, i | 0 <= k < |pieces| && 0 <= i < |pieces[k]| ensures !IsSeparator(pieces[k][i]) {
          if k == 0 {
            if i > 0 { assert pieces[0][i] == rest[0][i - 1]; }
          } else {
            assert pieces[k] == rest[k];
          }
        }
      } else {
        var pieces := [""] + rest;
        assert SplitOnSeparators(s) == pieces;
        forall k, i | 0 <= k < |pieces| && 0 <= i < |pieces[k]| ensures !IsSeparator(pieces[k][i]) {
          assert pieces[k] == rest[k - 1];
        }
      }
    }
  }

  lemma {:induction false} NonEmptyKeeps(pieces: seq<string>)
    ensures forall k :: 0 <= k < |NonEmpty(pieces)| ==> NonEmpty(pieces)[k] != "" && NonEmpty(pieces)[k] in pieces
  {
    if pieces != [] {
      NonEmptyKeeps(pieces[1..]);
      var head := if pieces[0] != "" then [pieces[0]] else [];
      var r := head + NonEmpty(pieces[1..]);
      assert NonEmpty(pieces) == r;
      forall k | 0 <= k < |r| ensures r[k] != "" && r[k] in pieces {
        if k >= |head| {
          assert r[k] == NonEmpty(pieces[1..])[k - |head|];
        }
      }
    }
  }

  /** The segments walked are non-empty and hold no separator. */
  lemma SegmentsAreSegments(modulePath: string)
    ensures forall k :: 0 <= k < |Segments(modulePath)| ==> IsSegment(Segments(modulePath)[k])
  {
    var pieces := SplitOnSeparators(modulePath);
    SplitPiecesHaveNoSeparator(modulePath);
    NonEmptyKeeps(pieces);
    forall k | 0 <= k < |Segments(modulePath)| ensures IsSegment(Segments(modulePath)[k]) {
      var p := Segments(modulePath)[k];
      var j :| 0 <= j < |pieces| && pieces[j] == p;
    }
  }

  /** A path yields no segment exactly when it is made of separators only (the empty
      path included). */
  lemma {:induction false} NoSegments(modulePath: string)
    ensures Segments(modulePath) == [] <==> forall i :: 0 <= i < |modulePath| ==> IsSeparator(modulePath[i])
    decreases |modulePath|
  {
    if modulePath != [] {
      var s := modulePath;
      NoSegments(s[1..]);
      var rest := SplitOnSeparators(s[1..]);
      if IsSeparator(s[0]) {
        assert SplitOnSeparators(s) == [""] + rest;
        assert ([""] + rest)[1..] == rest;
        assert forall i :: 1 <= i < |s| ==> s[i] == s[1..][i - 1];
      } else {
        assert SplitOnSeparators(s) == [[s[0]] + rest[0]] + rest[1..];
      }
    }
  }

  lemma {:induction false} SplitAfterSegment(p: string, t: string)
    requires forall i :: 0 <= i < |p| ==> !IsSeparator(p[i])
    ensures SplitOnSeparators(p + t) == [p + SplitOnSeparators(t)[0]] + SplitOnSeparators(t)[1..]
    decreases |p|
  {
    if p == [] {
      var pieces := SplitOnSeparators(t);
      assert p + t == t && p + pieces[0] == pieces[0];
      assert pieces == [pieces[0]] + pieces[1..];
    } else {
      assert (p + t)[1..] == p[1..] + t;
      SplitAfterSegment(p[1..], t);
      assert [p[0]] + (p[1..] + SplitOnSeparators(t)[0]) == p + SplitOnSeparators(t)[0];
    }
  }

  /** Joining segments with either separator and splitting again gives them back. */
  lemma {:induction false} SegmentsOfJoin(ps: seq<string>, c: char)
    requires IsSeparator(c) && forall k :: 0 <= k < |ps| ==> IsSegment(ps[k])
    ensures Segments(Join(ps, [c])) == ps
    decreases |ps|
  {
    if |ps| == 1 {
      SplitAfterSegment(ps[0], "");
      assert ps[0] + "" == ps[0];
      assert NonEmpty([ps[0]]) == [ps[0]] + NonEmpty([]);
    } else if |ps| > 1 {
      var tail := Join(ps[1..], [c]);
      SegmentsOfJoin(ps[1..], c);
      assert Join(ps, [c]) == ps[0] + ([c] + tail);
      SplitAfterSegment(ps[0], [c] + tail);
      assert ([c] + tail)[1..] == tail;
      var pieces := [ps[0]] + SplitOnSeparators(tail);
      assert SplitOnSeparators(Join(ps, [c])) == pieces by {
        assert ps[0] + "" == ps[0];
      }
      assert pieces[1..] == SplitOnSeparators(tail);
    }
  }

  /** `/` and `\` split alike, so Windows paths find the same reference. */
  lemma {:induction false} SeparatorsAlike(a: string, b: string, c1: char, c2: char)
    requires IsSeparator(c1) && IsSeparator(c2)
    ensures SplitOnSeparators(a + [c1] + b) == SplitOnSeparators(a + [c2] + b)
    decreases |a|
  {
    if a != [] {
      assert (a + [c1] + b)[1..] == a[1..] + [c1] + b;
      assert (a + [c2] + b)[1..] == a[1..] + [c2] + b;
      SeparatorsAlike(a[1..], b, c1, c2);
    } else {
      assert (a + [c1] + b)[1..] == b;
      assert (a + [c2] + b)[1..] == b;
    }
  }

  // ---------------------------------------------------------------------------------
  // `findFunctionReference`

  /** The `for (const part of parts)` walk from `node`: None is an early `return
      undefined`. */
  function Walk(node: JsValue, parts: seq<string>): (r: Option<JsValue>)
    ensures parts != [] && r.Some? ==> Truthy(r.value)
  {
    if parts == [] then Some(node)
    else if !Truthy(node) || TypeOf(node) != "object" then None
    else
      var next := GetProp(node, parts[0]);
      if !Truthy(next) then None else Walk(next, parts[1..])
  }

  /** What `findFunctionReference(api, modulePath, exportName)` returns; `Undefined`
      stands for `undefined`. */
  function FunctionReference(api: JsValue, modulePath: string, exportName: string): JsValue
  {
    var parts := Segments(modulePath);
    if parts == [] then Undefined
    else
      match Walk(api, parts)
      case None => Undefined
      case Some(node) =>
        if exportName == "default" then
          (if Truthy(GetProp(node, "default")) then GetProp(node, "default") else node)
        else GetProp(node, exportName)
  }

  method FindFunctionReference(api: JsValue, modulePath: string, exportName: string) returns (r: JsValue)
    ensures r == FunctionReference(api, modulePath, exportName)
  {
    var parts := SplitOnSeparators(modulePath);
    parts := NonEmpty(parts);
    if |parts| == 0 {
      return Undefined;
    }
    var current := api;
    for i := 0 to |parts|
      invariant Walk(api, parts) == Walk(current, parts[i..])
      invariant i > 0 ==> Truthy(current)
    {
      assert parts[i..][1..] == parts[i + 1..];
      if !Truthy(current) || TypeOf(current) != "object" {
        return Undefined;
      }
      current := GetProp(current, parts[i]);
      if !Truthy(current) {
        return Undefined;
      }
    }
    assert parts[|parts|..] == [];
    if exportName == "default" {
      var d := GetProp(current, "default");
      return if Truthy(d) then d else current;
    }
    r := GetProp(current, exportName);
  }

  /** Walking a path in two legs is walking it whole. */
  lemma {:induction false} WalkAppend(node: JsValue, a: seq<string>, b: seq<string>)
    ensures Walk(node, a + b) == (match Walk(node, a) case None => None case Some(n) => Walk(n, b))
    decreases |a|
  {
    if a == [] {
      assert a + b == b;
    } else {
      assert (a + b)[0] == a[0] && (a + b)[1..] == a[1..] + b;
      var next := GetProp(node, a[0]);
      if Truthy(node) && TypeOf(node) == "object" && Truthy(next) {
        WalkAppend(next, a[1..], b);
      }
    }
  }

  /** A path with no segment, such as "" or "/", finds nothing. */
  lemma NoSegmentsNoReference(api: JsValue, modulePath: string, exportName: string)
    requires forall i :: 0 <= i < |modulePath| ==> IsSeparator(modulePath[i])
    ensures FunctionReference(api, modulePath, exportName) == Undefined
  {
    NoSegments(modulePath);
  }

  /** Once the walk reaches a node, "default" yields its truthy `default` member or the
      node itself, so it is never undefined; any other name yields that member. */
  lemma DefaultExport(api: JsValue, modulePath: string, exportName: string, node: JsValue)
    requires Segments(modulePath) != [] && Walk(api, Segments(modulePath)) == Some(node)
    ensures exportName == "default" ==>
              FunctionReference(api, modulePath, exportName) ==
                (if Truthy(GetProp(node, "default")) then GetProp(node, "default") else node)
              && Truthy(FunctionReference(api, modulePath, exportName))
    ensures exportName != "default" ==> FunctionReference(api, modulePath, exportName) == GetProp(node, exportName)
  {
  }

  /** The segments of `a/b/c` (or `a\b\c`) are looked up one after the other. */
  lemma JoinedPathReference(api: JsValue, ps: seq<string>, c: char, exportName: string)
    requires IsSeparator(c) && ps != [] && forall k :: 0 <= k < |ps| ==> IsSegment(ps[k])
    ensures FunctionReference(api, Join(ps, [c]), exportName) ==
              match Walk(api, ps)
              case None => Undefined
              case Some(node) =>
                if exportName == "default" then
                  (if Truthy(GetProp(node, "default")) then GetProp(node, "default") else node)
                else GetProp(node, exportName)
  {
    SegmentsOfJoin(ps, c);
  }

  /** Replacing one separator by the other finds the same reference. */
  lemma WindowsPathsAlike(api: JsValue, a: string, b: string, exportName: string)
    ensures FunctionReference(api, a + "/" + b, exportName) == FunctionReference(api, a + "\\" + b, exportName)
  {
    SeparatorsAlike(a, b, '/', '\\');
  }

  // ---------------------------------------------------------------------------------
  // Export predicates

  /** `isConvexFn`: a truthy function or object whose `isQuery` and `isPublic` are both
      truthy. */
  predicate IsConvexFn(value: JsValue)
  {
    && Truthy(value) && (TypeOf(value) == "function" || TypeOf(value) == "object")
    && Truthy(GetProp(value, "isQuery")) && Truthy(GetProp(value, "isPublic"))
  }

  /** `hasZReturn`. */
  predicate HasZReturn(value: JsValue)
  {
    && Truthy(value) && (TypeOf(value) == "function" || TypeOf(value) == "object")
    && HasProp(value, "__zReturn") && Truthy(GetProp(value, "__zReturn"))
  }

  /** Only objects and functions pass, exactly when both flags are truthy. */
  lemma IsConvexFnExactly(value: JsValue)
    ensures IsConvexFn(value) <==>
              (value.Obj? || value.Fun?) && Truthy(GetProp(value, "isQuery")) && Truthy(GetProp(value, "isPublic"))
  {
  }

  /** The `in` test adds nothing: a truthy `__zReturn` on an object or function is
      enough. */
  lemma HasZReturnExactly(value: JsValue)
    ensures HasZReturn(value) <==> (value.Obj? || value.Fun?) && Truthy(GetProp(value, "__zReturn"))
  {
  }

  // ---------------------------------------------------------------------------------
  // `extractSchemasFromFile`

  /** `relativePath.replace(/\.ts$/, "")`. */
  function StripTsSuffix(relativePath: string): string
  {
    if EndsWith(relativePath, ".ts") then relativePath[..|relativePath| - 3] else relativePath
  }

  /** Exactly one trailing ".ts" is removed, and nothing else: ".js" stays. */
  lemma StripTsSuffixInverse(p: string)
    ensures StripTsSuffix(p + ".ts") == p
    ensures StripTsSuffix(p + ".ts.ts") == p + ".ts"
    ensures StripTsSuffix(p + ".js") == p + ".js"
  {
    assert (p + ".ts")[|p|..] == ".ts";
    assert (p + ".ts")[..|p|] == p;
    assert (p + ".ts.ts") == (p + ".ts") + ".ts";
    assert (p + ".ts.ts")[|p| + 3..] == ".ts";
    assert (p + ".ts.ts")[..|p| + 3] == p + ".ts";
    assert (p + ".js")[|p| + 1] == 'j';
  }

  /** What one export contributes: the checks of the loop body in their order. */
  function ZEntryFor(api: JsValue, modulePath: string, getFunctionName: JsValue -> string,
                        zodToJson: (JsValue, string) -> Option<JsValue>, e: Export): Option<SchemaEntry<JsValue>>
  {
    if !HasZReturn(e.value) || !IsConvexFn(e.value) then None
    else
      var fnRef := FunctionReference(api, modulePath, e.exportName);
      if !Truthy(fnRef) then None
      else
        var fnName := getFunctionName(fnRef);
        match zodToJson(GetProp(e.value, "__zReturn"), fnName)
        case None => None
        case Some(jsonSchema) => Some(SchemaEntry(fnName, Obj(map["output" := jsonSchema], false)))
  }

  function ZEmit(api: JsValue, modulePath: string, getFunctionName: JsValue -> string,
                    zodToJson: (JsValue, string) -> Option<JsValue>): Export -> Option<SchemaEntry<JsValue>>
  {
    e => ZEntryFor(api, modulePath, getFunctionName, zodToJson, e)
  }

  /** The entries of one file; `imported` is None when its dynamic import threw. */
  function ZEntries(api: JsValue, relativePath: string, imported: Option<seq<Export>>,
                       getFunctionName: JsValue -> string, zodToJson: (JsValue, string) -> Option<JsValue>): seq<SchemaEntry<JsValue>>
  {
    match imported
    case None => []
    case Some(exports) => Kept(exports, ZEmit(api, StripTsSuffix(relativePath), getFunctionName, zodToJson))
  }

  method ExtractSchemasFromFile(api: JsValue, relativePath: string, imported: Option<seq<Export>>,
                                   getFunctionName: JsValue -> string, zodToJson: (JsValue, string) -> Option<JsValue>)
    returns (entries: seq<SchemaEntry<JsValue>>)
    ensures entries == ZEntries(api, relativePath, imported, getFunctionName, zodToJson)
  {
    entries := [];
    if imported.None? {
      return entries;
    }
    var exports := imported.value;
    var modulePath := StripTsSuffix(relativePath);
    ghost var emit := ZEmit(api, modulePath, getFunctionName, zodToJson);
    for i := 0 to |exports|
      invariant entries == Kept(exports[..i], emit)
    {
      KeptSnoc(exports, i, emit);
      var exportName := exports[i].exportName;
      var value := exports[i].value;
      if !HasZReturn(value) {
        continue;
      }
      if !IsConvexFn(value) {
        continue;
      }
      var zReturn := GetProp(value, "__zReturn");
      var fnRef := FindFunctionReference(api, modulePath, exportName);
      if !Truthy(fnRef) {
        continue;
      }
      var fnName := getFunctionName(fnRef);
      var jsonSchema := zodToJson(zReturn, fnName);
      if jsonSchema.None? {
        continue;
      }
      entries := entries + [SchemaEntry(fnName, Obj(map["output" := jsonSchema.value], false))];
    }
    assert exports[..|exports|] == exports;
  }

  /** An entry comes out exactly for an export with a truthy `__zReturn` that is a
      public query, is found in the api tree and whose schema converts; it is named after
      the reference found. A failed import gives no entry, and there are never more
      entries than exports. */
  lemma ZEntriesExactly(api: JsValue, relativePath: string, imported: Option<seq<Export>>,
                           getFunctionName: JsValue -> string, zodToJson: (JsValue, string) -> Option<JsValue>)
    ensures imported.None? ==> ZEntries(api, relativePath, imported, getFunctionName, zodToJson) == []
    ensures imported.Some? ==>
              |ZEntries(api, relativePath, imported, getFunctionName, zodToJson)| <= |imported.value|
    ensures imported.Some? ==> forall y :: y in ZEntries(api, relativePath, imported, getFunctionName, zodToJson) <==>
              exists i :: 0 <= i < |imported.value| &&
                var e := imported.value[i];
                var fnRef := FunctionReference(api, StripTsSuffix(relativePath), e.exportName);
                && HasZReturn(e.value) && IsConvexFn(e.value) && Truthy(fnRef)
                && zodToJson(GetProp(e.value, "__zReturn"), getFunctionName(fnRef)).Some?
                && y == SchemaEntry(getFunctionName(fnRef),
                                    Obj(map["output" := zodToJson(GetProp(e.value, "__zReturn"), getFunctionName(fnRef)).value], false))
  {
    if imported.Some? {
      var xs := imported.value;
      var mp := StripTsSuffix(relativePath);
      var emit := ZEmit(api, mp, getFunctionName, zodToJson);
      KeptLength(xs, emit);
      forall y ensures y in Kept(xs, emit) <==>
                         exists i :: 0 <= i < |xs| &&
                           var e := xs[i];
                           var fnRef := FunctionReference(api, mp, e.exportName);
                           && HasZReturn(e.value) && IsConvexFn(e.value) && Truthy(fnRef)
                           && zodToJson(GetProp(e.value, "__zReturn"), getFunctionName(fnRef)).Some?
                           && y == SchemaEntry(getFunctionName(fnRef),
                                               Obj(map["output" := zodToJson(GetProp(e.value, "__zReturn"), getFunctionName(fnRef)).value], false))
      {
        KeptMember(xs, emit, y);
        if y in Kept(xs, emit) {
          var i :| 0 <= i < |xs| && emit(xs[i]) == Some(y);
          ZEntryForExactly(api, mp, getFunctionName, zodToJson, xs[i], y);
        }
        if exists i :: 0 <= i < |xs| &&
             var e := xs[i];
             var fnRef := FunctionReference(api, mp, e.exportName);
             && HasZReturn(e.value) && IsConvexFn(e.value) && Truthy(fnRef)
             && zodToJson(GetProp(e.value, "__zReturn"), getFunctionName(fnRef)).Some?
             && y == SchemaEntry(getFunctionName(fnRef),
                                 Obj(map["output" := zodToJson(GetProp(e.value, "__zReturn"), getFunctionName(fnRef)).value], false))
        {
          var i :| 0 <= i < |xs| &&
             var e := xs[i];
             var fnRef := FunctionReference(api, mp, e.exportName);
             && HasZReturn(e.value) && IsConvexFn(e.value) && Truthy(fnRef)
             && zodToJson(GetProp(e.value, "__zReturn"), getFunctionName(fnRef)).Some?
             && y == SchemaEntry(getFunctionName(fnRef),
                                 Obj(map["output" := zodToJson(GetProp(e.value, "__zReturn"), getFunctionName(fnRef)).value], false));
          ZEntryForExactly(api, mp, getFunctionName, zodToJson, xs[i], y);
        }
      }
    }
  }

  /** What one export yields: an entry named after its reference, holding
      `{ output: <converted schema> }`, exactly when all the checks pass. */
  lemma ZEntryForExactly(api: JsValue, modulePath: string, getFunctionName: JsValue -> string,
                         zodToJson: (JsValue, string) -> Option<JsValue>, e: Export, y: SchemaEntry<JsValue>)
    ensures ZEmit(api, modulePath, getFunctionName, zodToJson)(e) == Some(y) <==>
              var fnRef := FunctionReference(api, modulePath, e.exportName);
              && HasZReturn(e.value) && IsConvexFn(e.value) && Truthy(fnRef)
              && zodToJson(GetProp(e.value, "__zReturn"), getFunctionName(fnRef)).Some?
              && y == SchemaEntry(getFunctionName(fnRef),
                                  Obj(map["output" := zodToJson(GetProp(e.value, "__zReturn"), getFunctionName(fnRef)).value], false))
  {
  }

  // ---------------------------------------------------------------------------------
  // `buildSchemasFileContent`

  const ZHeader := "// Auto-generated file - do not edit manually\n// This file contains JSON Schema definitions converted from Zod schemas\n\nexport const schemaMap = {\n"
  const ZFooter := "\n};\n"

  function BuildSchemasFileContent<S>(le: NameOrder, stringify: S -> string, schemaEntries: seq<SchemaEntry<S>>): string
    requires TotalOrder(le)
  {
    ZHeader + EntryBlock(le, stringify, schemaEntries) + ZFooter
  }

  /** The content is the header, one item per entry in ascending name order joined by
      newlines, and the closing brace. */
  lemma ContentLayout<S>(le: NameOrder, stringify: S -> string, xs: seq<SchemaEntry<S>>)
    requires TotalOrder(le)
    ensures var c := BuildSchemasFileContent(le, stringify, xs);
      var sorted := SortByName(le, xs);
      && ZHeader <= c
      && c == ZHeader + Join(Items(stringify, sorted), "\n") + ZFooter
      && |sorted| == |xs| && SortedByName(le, sorted) && multiset(sorted) == multiset(xs)
  {
    EntryBlockLines(le, stringify, xs);
  }

  /** When names determine entries, the content does not depend on the input order. */
  lemma ContentIgnoresInputOrder<S>(le: NameOrder, stringify: S -> string, p: seq<SchemaEntry<S>>, q: seq<SchemaEntry<S>>)
    requires TotalOrder(le) && Antisymmetric(le)
    requires multiset(p) == multiset(q) && NamesDetermineEntries(multiset(p))
    ensures BuildSchemasFileContent(le, stringify, p) == BuildSchemasFileContent(le, stringify, q)
  {
    SortIgnoresInputOrder(le, p, q);
  }

  // ---------------------------------------------------------------------------------
  // `resolveConvexDirFromArgs`

  /** `args.indexOf(x)`. */
  function IndexOf(args: seq<string>, x: string): (idx: int)
    ensures -1 <= idx < |args|
    ensures idx >= 0 ==> args[idx] == x && forall i :: 0 <= i < idx ==> args[i] != x
    ensures idx == -1 <==> x !in args
  {
    if args == [] then -1
    else if args[0] == x then 0
    else
      var k := IndexOf(args[1..], x);
      assert x in args[1..] ==> x in args;
      assert x in args ==> x in args[1..];
      if k == -1 then -1 else k + 1
  }

  const ConvexDirFlag := "--convexDir"

  /** `join(cwd, "convex")` unless the argument after the first "--convexDir" exists and
      is non-empty, in which case `resolve` of it. */
  function ResolveConvexDirFromArgs(cwd: string, join: (string, string) -> string, resolve: string -> string,
                                    args: seq<string>): string
  {
    var idx := IndexOf(args, ConvexDirFlag);
    if idx != -1 && idx + 1 < |args| && args[idx + 1] != "" then resolve(args[idx + 1]) else join(cwd, "convex")
  }

  /** Without the flag the default is used. */
  lemma ResolveWithoutFlag(cwd: string, join: (string, string) -> string, resolve: string -> string, args: seq<string>)
    requires ConvexDirFlag !in args
    ensures ResolveConvexDirFromArgs(cwd, join, resolve, args) == join(cwd, "convex")
  {
  }

  /** Only the first occurrence of the flag counts: what follows it decides, and a
      missing or empty value falls back to the default even when the flag occurs again
      later. */
  lemma {:induction false} ResolveFirstFlag(cwd: string, join: (string, string) -> string, resolve: string -> string,
                                            pre: seq<string>, post: seq<string>)
    requires ConvexDirFlag !in pre
    ensures ResolveConvexDirFromArgs(cwd, join, resolve, pre + [ConvexDirFlag] + post) ==
              if post != [] && post[0] != "" then resolve(post[0]) else join(cwd, "convex")
  {
    var args := pre + [ConvexDirFlag] + post;
    assert args[|pre|] == ConvexDirFlag;
    forall i | 0 <= i < |pre| ensures args[i] != ConvexDirFlag {
      assert args[i] == pre[i];
    }
    var idx := IndexOf(args, ConvexDirFlag);
    assert idx == |pre|;
    if post != [] {
      assert args[idx + 1] == post[0];
    }
  }

  // ---------------------------------------------------------------------------------
  // `main`

  /** One file found by the glob: its path relative to the convex directory and its
      exports, or None when importing it threw. */
  datatype SourceFile = SourceFile(relativePath: string, imported: Option<seq<Export>>)

  const NoConvexDirWarning := "\U{26A0}\U{FE0F}  No \"convex\" directory found in this project. Skipping schema generation."
  const NoZodFunctionsWarning := "\U{26A0}\U{FE0F}  No Zod-returning Convex functions found."

  datatype RunOutcome =
    | Skipped(warning: string)
      /** `if (!api) return;`: `loadConvexApi` gave null (after its own warning), or the
          module exported a falsy `api`. */
    | NoApi
    | Wrote(fileName: string, content: string)

  function PerFileEntries(api: JsValue, files: seq<SourceFile>, getFunctionName: JsValue -> string,
                             zodToJson: (JsValue, string) -> Option<JsValue>): (r: seq<seq<SchemaEntry<JsValue>>>)
    ensures |r| == |files|
    ensures forall i :: 0 <= i < |files| ==>
              r[i] == ZEntries(api, files[i].relativePath, files[i].imported, getFunctionName, zodToJson)
  {
    seq(|files|, i requires 0 <= i < |files| =>
      ZEntries(api, files[i].relativePath, files[i].imported, getFunctionName, zodToJson))
  }

  /** `Promise.all(files.map((file) => extractSchemasFromFile(file, api, convexDir)))`:
      the lists come back in file order. */
  method ExtractAll(api: JsValue, files: seq<SourceFile>, getFunctionName: JsValue -> string,
                       zodToJson: (JsValue, string) -> Option<JsValue>)
    returns (perFileEntries: seq<seq<SchemaEntry<JsValue>>>)
    ensures perFileEntries == PerFileEntries(api, files, getFunctionName, zodToJson)
  {
    ghost var all := PerFileEntries(api, files, getFunctionName, zodToJson);
    perFileEntries := [];
    for i := 0 to |files|
      invariant |perFileEntries| == i
      invariant forall k :: 0 <= k < i ==> perFileEntries[k] == all[k]
    {
      var entries := ExtractSchemasFromFile(api, files[i].relativePath, files[i].imported, getFunctionName, zodToJson);
      perFileEntries := perFileEntries + [entries];
    }
  }

  /** What `main` does for the given directory status, the loaded api and the files. */
  function RunResult(le: NameOrder, stringify: JsValue -> string, getFunctionName: JsValue -> string,
                        zodToJson: (JsValue, string) -> Option<JsValue>, convexDirExists: bool,
                        api: Option<JsValue>, files: seq<SourceFile>): RunOutcome
    requires TotalOrder(le)
  {
    if !convexDirExists then Skipped(NoConvexDirWarning)
    else if api.None? || !Truthy(api.value) then NoApi
    else
      var schemaEntries := SchemaMap.Dedupe(SchemaMap.Flatten(PerFileEntries(api.value, files, getFunctionName, zodToJson)));
      if |schemaEntries| == 0 then Skipped(NoZodFunctionsWarning)
      else Wrote("schemaMap.js", BuildSchemasFileContent(le, stringify, schemaEntries))
  }

  /** `main`, with the directory check, `loadConvexApi` and the glob's files as inputs. */
  method RunGenerator(le: NameOrder, stringify: JsValue -> string, getFunctionName: JsValue -> string,
                         zodToJson: (JsValue, string) -> Option<JsValue>, convexDirExists: bool,
                         api: Option<JsValue>, files: seq<SourceFile>)
    returns (outcome: RunOutcome)
    requires TotalOrder(le)
    ensures outcome == RunResult(le, stringify, getFunctionName, zodToJson, convexDirExists, api, files)
  {
    if !convexDirExists {
      return Skipped(NoConvexDirWarning);
    }
    if api.None? || !Truthy(api.value) {
      return NoApi;
    }
    var perFileEntries := ExtractAll(api.value, files, getFunctionName, zodToJson);
    var schemaEntries := SchemaMap.DedupeByName(perFileEntries);
    if |schemaEntries| == 0 {
      return Skipped(NoZodFunctionsWarning);
    }
    outcome := Wrote("schemaMap.js", BuildSchemasFileContent(le, stringify, schemaEntries));
  }

  /** `if (!api) return;`: an api export that is missing or falsy (`undefined`, `null`)
      stops the run silently, whatever the files hold. Nothing is written otherwise
      exactly when no file yields an entry; the one file written is `schemaMap.js`,
      listing each name's last entry. */
  lemma RunWritesOnlyWithEntries(le: NameOrder, stringify: JsValue -> string, getFunctionName: JsValue -> string,
                                    zodToJson: (JsValue, string) -> Option<JsValue>, api: JsValue, files: seq<SourceFile>)
    requires TotalOrder(le)
    ensures var outcome := RunResult(le, stringify, getFunctionName, zodToJson, true, Some(api), files);
            var all := SchemaMap.Flatten(PerFileEntries(api, files, getFunctionName, zodToJson));
            && (outcome.NoApi? <==> !Truthy(api))
            && (outcome.Skipped? <==> Truthy(api) && all == [])
            && (outcome.Skipped? ==> outcome.warning == NoZodFunctionsWarning)
            && (outcome.Wrote? <==> Truthy(api) && all != [])
            && (outcome.Wrote? ==>
                  outcome.fileName == "schemaMap.js" &&
                  outcome.content == BuildSchemasFileContent(le, stringify, SchemaMap.Dedupe(all)))
  {
    SchemaMap.DedupeEmpty(SchemaMap.Flatten(PerFileEntries(api, files, getFunctionName, zodToJson)));
  }
}
