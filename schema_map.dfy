/** Building the schema map (src/cli/fns/fns/generate-z-schema/fns/build-schema-map.ts):
    the per-file entry lists are merged into a `Map` keyed by function name, and the
    surviving entries are written to `schemaMap.ts`, or to `schemaMap.js` plus
    `schemaMap.d.ts`.

    Extracting the lists (one `extractSchema` call per file, module ExtractSchema),
    `shouldUseTs()` and the filesystem are inputs or left out: the writer returns the
    files it would write and the warning it would print. */
module SchemaMap {
  import opened Wrappers
  import OrderedMap
  import opened SchemaFile

  /** The lists in file order, then entry order. */
  function Flatten<S>(lists: seq<seq<SchemaEntry<S>>>): seq<SchemaEntry<S>>
  {
    if lists == [] then [] else Flatten(lists[..|lists| - 1]) + lists[|lists| - 1]
  }

  /** `byName` after `byName.set(entry.fnName, entry)` for every entry of xs, in order. */
  function ByName<S>(xs: seq<SchemaEntry<S>>): (m: seq<(string, SchemaEntry<S>)>)
    decreases |xs|
  {
    if xs == [] then []
    else OrderedMap.Put(ByName(xs[..|xs| - 1]), xs[|xs| - 1].fnName, xs[|xs| - 1])
  }

  /** `[...byName.values()]`. */
  function Dedupe<S>(xs: seq<SchemaEntry<S>>): seq<SchemaEntry<S>>
  {
    OrderedMap.Values(ByName(xs))
  }

  lemma ByNameSnoc<S>(ys: seq<SchemaEntry<S>>, x: SchemaEntry<S>)
    ensures ByName(ys + [x]) == OrderedMap.Put(ByName(ys), x.fnName, x)
  {
    assert (ys + [x])[..|ys|] == ys;
  }

  lemma FlattenSnoc<S>(lists: seq<seq<SchemaEntry<S>>>, i: nat)
    requires i < |lists|
    ensures Flatten(lists[..i + 1]) == Flatten(lists[..i]) + lists[i]
  {
    assert lists[..i + 1][..i] == lists[..i];
  }

  /** One step of the inner loop: the next entry extends what has been seen. */
  lemma AddOne<S>(before: seq<SchemaEntry<S>>, list: seq<SchemaEntry<S>>, j: nat)
    requires j < |list|
    ensures before + list[..j + 1] == (before + list[..j]) + [list[j]]
    ensures ByName(before + list[..j + 1]) == OrderedMap.Put(ByName(before + list[..j]), list[j].fnName, list[j])
  {
    assert list[..j + 1] == list[..j] + [list[j]];
    ByNameSnoc(before + list[..j], list[j]);
  }

  /** The nested loops of `buildSchemaMap` (and of `main` in generate-z-schema.ts). */
  method DedupeByName<S>(perFileEntries: seq<seq<SchemaEntry<S>>>) returns (schemaEntries: seq<SchemaEntry<S>>)
    ensures schemaEntries == Dedupe(Flatten(perFileEntries))
  {
    var byName: seq<(string, SchemaEntry<S>)> := [];
    ghost var seen: seq<SchemaEntry<S>> := [];
    for i := 0 to |perFileEntries|
      invariant seen == Flatten(perFileEntries[..i])
      invariant byName == ByName(seen)
    {
      var list := perFileEntries[i];
      ghost var before := seen;
      for j := 0 to |list|
        invariant seen == before + list[..j]
        invariant byName == ByName(seen)
      {
        var entry := list[j];
        AddOne(before, list, j);
        byName := OrderedMap.Put(byName, entry.fnName, entry);
        seen := seen + [entry];
      }
      FlattenSnoc(perFileEntries, i);
      assert list[..|list|] == list;
    }
    assert perFileEntries[..|perFileEntries|] == perFileEntries;
    schemaEntries := OrderedMap.Values(byName);
  }

  /** Every entry of the map is stored under its own name, and names are distinct. */
  lemma {:induction false} ByNameShape<S>(xs: seq<SchemaEntry<S>>)
    ensures OrderedMap.DistinctKeys(ByName(xs))
    ensures forall i :: 0 <= i < |ByName(xs)| ==> ByName(xs)[i].1.fnName == ByName(xs)[i].0
    decreases |xs|
  {
    if xs != [] {
      var init := xs[..|xs| - 1];
      var x := xs[|xs| - 1];
      var m := ByName(init);
      var r := ByName(xs);
      assert r == OrderedMap.Put(m, x.fnName, x);
      ByNameShape(init);
      OrderedMap.PutKeepsDistinct(m, x.fnName, x);
      OrderedMap.PutFrom(m, x.fnName, x);
      forall i | 0 <= i < |r| ensures r[i].1.fnName == r[i].0 {
        if r[i] != (x.fnName, x) {
          var p :| 0 <= p < |m| && m[p] == r[i];
        }
      }
    }
  }

  /** Some entry of xs is named n. */
  predicate Occurs<S>(xs: seq<SchemaEntry<S>>, n: string)
  {
    exists k :: 0 <= k < |xs| && xs[k].fnName == n
  }

  lemma OccursSnoc<S>(init: seq<SchemaEntry<S>>, x: SchemaEntry<S>, n: string)
    ensures Occurs(init + [x], n) <==> Occurs(init, n) || x.fnName == n
  {
    var xs := init + [x];
    if Occurs(xs, n) && x.fnName != n {
      var k :| 0 <= k < |xs| && xs[k].fnName == n;
      assert init[k] == xs[k];
    }
    if Occurs(init, n) {
      var k :| 0 <= k < |init| && init[k].fnName == n;
      assert xs[k] == init[k];
    }
    assert xs[|init|] == x;
  }

  /** The names kept are exactly the names that occur. */
  lemma {:induction false} ByNameKeys<S>(xs: seq<SchemaEntry<S>>)
    ensures forall n :: OrderedMap.Has(ByName(xs), n) <==> Occurs(xs, n)
    decreases |xs|
  {
    if xs != [] {
      var init := xs[..|xs| - 1];
      var x := xs[|xs| - 1];
      var m := ByName(init);
      assert xs == init + [x];
      assert ByName(xs) == OrderedMap.Put(m, x.fnName, x);
      ByNameKeys(init);
      forall n ensures OrderedMap.Has(ByName(xs), n) <==> Occurs(xs, n) {
        OrderedMap.PutHas(m, x.fnName, x, n);
        OccursSnoc(init, x, n);
      }
    }
  }

  /** For every name, the entry kept is its last occurrence. */
  lemma {:induction false} ByNameKeepsLast<S>(xs: seq<SchemaEntry<S>>, k: nat)
    requires k < |xs|
    requires forall k' :: k < k' < |xs| ==> xs[k'].fnName != xs[k].fnName
    ensures OrderedMap.Get(ByName(xs), xs[k].fnName) == Some(xs[k])
    decreases |xs|
  {
    var init := xs[..|xs| - 1];
    var x := xs[|xs| - 1];
    assert ByName(xs) == OrderedMap.Put(ByName(init), x.fnName, x);
    if k < |xs| - 1 {
      ByNameKeepsLast(init, k);
      OrderedMap.PutGetOther(ByName(init), x.fnName, x, xs[k].fnName);
    } else {
      OrderedMap.PutGetSame(ByName(init), x.fnName, x);
    }
  }

  /** The position of the first entry named n, or |xs| when there is none. */
  function FirstIndex<S>(xs: seq<SchemaEntry<S>>, n: string): (k: nat)
    ensures k <= |xs| && (k < |xs| ==> xs[k].fnName == n)
    ensures forall i :: 0 <= i < k ==> xs[i].fnName != n
  {
    if xs == [] then 0
    else if xs[0].fnName == n then 0
    else 1 + FirstIndex(xs[1..], n)
  }

  lemma FirstIndexOfPrefix<S>(ys: seq<SchemaEntry<S>>, x: SchemaEntry<S>, n: string)
    ensures FirstIndex(ys + [x], n) == if FirstIndex(ys, n) < |ys| then FirstIndex(ys, n) else if x.fnName == n then |ys| else |ys| + 1
    decreases |ys|
  {
    if ys != [] {
      assert (ys + [x])[1..] == ys[1..] + [x];
      FirstIndexOfPrefix(ys[1..], x, n);
    }
  }

  /** Entries come out in the order in which their names first appeared. */
  lemma {:induction false} ByNameFirstAppearanceOrder<S>(xs: seq<SchemaEntry<S>>)
    ensures forall a, b :: 0 <= a < b < |ByName(xs)| ==> FirstIndex(xs, ByName(xs)[a].0) < FirstIndex(xs, ByName(xs)[b].0)
    ensures forall a :: 0 <= a < |ByName(xs)| ==> FirstIndex(xs, ByName(xs)[a].0) < |xs|
    decreases |xs|
  {
    if xs != [] {
      var init := xs[..|xs| - 1];
      var x := xs[|xs| - 1];
      assert xs == init + [x];
      ByNameFirstAppearanceOrder(init);
      var m := ByName(init);
      var r := ByName(xs);
      assert r == OrderedMap.Put(m, x.fnName, x);
      // A name already present keeps its first position.
      forall a | 0 <= a < |m| ensures FirstIndex(xs, m[a].0) == FirstIndex(init, m[a].0) < |init| {
        FirstIndexOfPrefix(init, x, m[a].0);
      }
      if OrderedMap.Has(m, x.fnName) {
        OrderedMap.PutPresent(m, x.fnName, x);
      } else {
        OrderedMap.PutAbsent(m, x.fnName, x);
        assert r[|m|].0 == x.fnName;
        ByNameKeys(init);
        FirstIndexOfPrefix(init, x, x.fnName);
        assert FirstIndex(xs, x.fnName) == |init|;
      }
    }
  }

  // The properties of the dedupe, stated on its result.

  /** No two entries share a name. */
  lemma DedupeDistinctNames<S>(xs: seq<SchemaEntry<S>>)
    ensures forall a, b :: 0 <= a < b < |Dedupe(xs)| ==> Dedupe(xs)[a].fnName != Dedupe(xs)[b].fnName
  {
    ByNameShape(xs);
  }

  /** Every name of the input survives. */
  lemma DedupeCoversNames<S>(xs: seq<SchemaEntry<S>>)
    ensures forall k :: 0 <= k < |xs| ==> exists i :: 0 <= i < |Dedupe(xs)| && Dedupe(xs)[i].fnName == xs[k].fnName
  {
    var m := ByName(xs);
    var r := Dedupe(xs);
    ByNameShape(xs);
    ByNameKeys(xs);
    forall k | 0 <= k < |xs| ensures exists i :: 0 <= i < |r| && r[i].fnName == xs[k].fnName {
      assert OrderedMap.Has(m, xs[k].fnName);
      var i :| 0 <= i < |m| && m[i].0 == xs[k].fnName;
      assert r[i] == m[i].1;
    }
  }

  /** The last entry with a given name is the one kept. */
  lemma DedupeKeepsLast<S>(xs: seq<SchemaEntry<S>>, k: nat)
    requires k < |xs|
    requires forall k' :: k < k' < |xs| ==> xs[k'].fnName != xs[k].fnName
    ensures exists i :: 0 <= i < |Dedupe(xs)| && Dedupe(xs)[i] == xs[k]
  {
    var m := ByName(xs);
    ByNameKeepsLast(xs, k);
    var i :| 0 <= i < |m| && m[i] == (xs[k].fnName, xs[k]);
    assert Dedupe(xs)[i] == m[i].1;
  }

  /** Every entry kept is the last entry of the input with its name. */
  lemma DedupeOnlyLast<S>(xs: seq<SchemaEntry<S>>)
    ensures forall i :: 0 <= i < |Dedupe(xs)| ==> exists k :: 0 <= k < |xs| && Dedupe(xs)[i] == xs[k] &&
                                                   (forall k' :: k < k' < |xs| ==> xs[k'].fnName != xs[k].fnName)
  {
    var m := ByName(xs);
    var r := Dedupe(xs);
    ByNameShape(xs);
    ByNameKeys(xs);
    forall i | 0 <= i < |r| ensures exists k :: 0 <= k < |xs| && r[i] == xs[k] &&
                                              (forall k' :: k < k' < |xs| ==> xs[k'].fnName != xs[k].fnName)
    {
      var n := m[i].0;
      assert OrderedMap.Has(m, n);
      var k := LastIndexOf(xs, n);
      ByNameKeepsLast(xs, k);
      assert OrderedMap.Get(m, n) == Some(m[i].1);
      assert r[i] == xs[k];
    }
  }

  /** Entries come out in the order in which their names first appeared. */
  lemma DedupeFirstAppearanceOrder<S>(xs: seq<SchemaEntry<S>>)
    ensures forall a, b :: 0 <= a < b < |Dedupe(xs)| ==> FirstIndex(xs, Dedupe(xs)[a].fnName) < FirstIndex(xs, Dedupe(xs)[b].fnName)
  {
    ByNameShape(xs);
    ByNameFirstAppearanceOrder(xs);
  }

  /** The result is empty exactly when there was no entry at all. */
  lemma DedupeEmpty<S>(xs: seq<SchemaEntry<S>>)
    ensures Dedupe(xs) == [] <==> xs == []
  {
    if xs != [] {
      ByNameKeys(xs);
      assert OrderedMap.Has(ByName(xs), xs[0].fnName);
    }
  }

  /** The position of the last entry named n, for a name that occurs. */
  function LastIndexOf<S>(xs: seq<SchemaEntry<S>>, n: string): (k: nat)
    requires exists k :: 0 <= k < |xs| && xs[k].fnName == n
    ensures k < |xs| && xs[k].fnName == n
    ensures forall k' :: k < k' < |xs| ==> xs[k'].fnName != n
    decreases |xs|
  {
    if xs[|xs| - 1].fnName == n then |xs| - 1
    else
      var k :| 0 <= k < |xs| && xs[k].fnName == n;
      assert xs[..|xs| - 1][k] == xs[k];
      LastIndexOf(xs[..|xs| - 1], n)
  }

  // ---------------------------------------------------------------------------------
  // Writing

  /** A file `writeSchemasFile` writes into `<convexDir>/_generated`. */
  datatype Written = Written(fileName: string, content: string)

  /** `writeSchemasFile(schemaEntries, convexDir)` with `shouldUseTs()` as `useTs`. */
  function WriteSchemasFile<S>(le: NameOrder, stringify: S -> string, schemaEntries: seq<SchemaEntry<S>>, useTs: bool): seq<Written>
    requires TotalOrder(le)
  {
    if useTs then [Written("schemaMap.ts", SchemaFileTs(le, stringify, schemaEntries))]
    else [Written("schemaMap.js", SchemaFileJs(le, stringify, schemaEntries)), Written("schemaMap.d.ts", SchemaDtsFile)]
  }

  /** A TypeScript project gets `schemaMap.ts` alone; any other project gets
      `schemaMap.js` and the fixed declaration file. Past their headers the two map
      files are the same text, so both modes publish the same entries. */
  lemma WrittenFiles<S>(le: NameOrder, stringify: S -> string, schemaEntries: seq<SchemaEntry<S>>)
    requires TotalOrder(le)
    ensures var ts := WriteSchemasFile(le, stringify, schemaEntries, true);
            var js := WriteSchemasFile(le, stringify, schemaEntries, false);
            && |ts| == 1 && ts[0].fileName == "schemaMap.ts" && TsHeader <= ts[0].content
            && |js| == 2 && js[0].fileName == "schemaMap.js" && JsHeader <= js[0].content
            && js[1] == Written("schemaMap.d.ts", SchemaDtsFile)
            && ts[0].content[|TsHeader|..] == js[0].content[|JsHeader|..]
  {
    TsAndJsShareEntries(le, stringify, schemaEntries);
  }

  const NoEntriesWarning := "\U{26A0}\U{FE0F}  No Convex functions with `__returnsJson` found."

  /** What a `buildSchemaMap` call does once the lists are extracted. */
  datatype BuildResult = Warned(message: string) | Wrote(files: seq<Written>)

  method BuildSchemaMap<S>(le: NameOrder, stringify: S -> string, perFileEntries: seq<seq<SchemaEntry<S>>>, useTs: bool)
    returns (result: BuildResult)
    requires TotalOrder(le)
    ensures result.Warned? <==> Flatten(perFileEntries) == []
    ensures result.Warned? ==> result.message == NoEntriesWarning
    ensures result.Wrote? ==> result.files == WriteSchemasFile(le, stringify, Dedupe(Flatten(perFileEntries)), useTs)
  {
    var schemaEntries := DedupeByName(perFileEntries);
    DedupeEmpty(Flatten(perFileEntries));
    if |schemaEntries| == 0 {
      return Warned(NoEntriesWarning);
    }
    result := Wrote(WriteSchemasFile(le, stringify, schemaEntries, useTs));
  }
}
