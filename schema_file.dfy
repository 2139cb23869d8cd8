/** The schema-map file builders (src/cli/fns/fns/generate-z-schema/utils/build-schema-file.ts):
    a copy of the entries is sorted by function name and rendered, one line per entry,
    into a TypeScript or a JavaScript module; a constant declaration file goes with the
    JavaScript one.

    `String.prototype.localeCompare` is the parameter `le` (a name sorts at or before
    another), assumed to be a total order; `JSON.stringify(schema, null, 2)` is the
    parameter `stringify`. */
module SchemaFile {
  /** `SchemaEntry`: a function name and the schema generated for it. */
  datatype SchemaEntry<S> = SchemaEntry(fnName: string, schema: S)

  type NameOrder = (string, string) -> bool

  ghost predicate TotalOrder(le: NameOrder)
  {
    (forall a, b :: le(a, b) || le(b, a)) &&
    (forall a, b, c :: le(a, b) && le(b, c) ==> le(a, c))
  }

  /** `localeCompare` returns 0 only for identical names. */
  ghost predicate Antisymmetric(le: NameOrder)
  {
    forall a, b :: le(a, b) && le(b, a) ==> a == b
  }

  ghost predicate SortedByName<S>(le: NameOrder, xs: seq<SchemaEntry<S>>)
  {
    forall i, j :: 0 <= i < j < |xs| ==> le(xs[i].fnName, xs[j].fnName)
  }

  // ---------------------------------------------------------------------------------
  // `[...entries].sort((a, b) => a.fnName.localeCompare(b.fnName))`

  /** Place e into a sorted list after every entry whose name sorts at or before its own. */
  function Insert<S>(le: NameOrder, e: SchemaEntry<S>, s: seq<SchemaEntry<S>>): (r: seq<SchemaEntry<S>>)
    requires TotalOrder(le) && SortedByName(le, s)
    ensures SortedByName(le, r)
    ensures multiset(r) == multiset(s) + multiset{e}
    decreases |s|
  {
    if s == [] then [e]
    else if le(s[|s| - 1].fnName, e.fnName) then
      AppendSorted(le, s, e);
      s + [e]
    else
      var init := s[..|s| - 1];
      var last := s[|s| - 1];
      assert s == init + [last];
      var r0 := Insert(le, e, init);
      InsertedBelowLast(le, init, last, e, r0);
      AppendSorted(le, r0, last);
      r0 + [last]
  }

  /** Appending an entry that sorts at or after every entry keeps a list sorted. */
  lemma AppendSorted<S>(le: NameOrder, s: seq<SchemaEntry<S>>, x: SchemaEntry<S>)
    requires TotalOrder(le) && SortedByName(le, s)
    requires s == [] || le(s[|s| - 1].fnName, x.fnName)
    ensures SortedByName(le, s + [x])
  {
    var r := s + [x];
    forall i, j | 0 <= i < j < |r| ensures le(r[i].fnName, r[j].fnName) {
      assert r[i] == s[i];
      if j < |s| {
        assert r[j] == s[j];
      } else if i < |s| - 1 {
        assert le(s[i].fnName, s[|s| - 1].fnName);
      }
    }
  }

  /** Every entry of init, and e, sorts at or before last; so does a rearrangement of them. */
  lemma InsertedBelowLast<S>(le: NameOrder, init: seq<SchemaEntry<S>>, last: SchemaEntry<S>, e: SchemaEntry<S>, r0: seq<SchemaEntry<S>>)
    requires TotalOrder(le) && SortedByName(le, init + [last]) && !le(last.fnName, e.fnName)
    requires multiset(r0) == multiset(init) + multiset{e}
    ensures forall i :: 0 <= i < |r0| ==> le(r0[i].fnName, last.fnName)
  {
    var s := init + [last];
    forall i | 0 <= i < |r0| ensures le(r0[i].fnName, last.fnName) {
      assert r0[i] in multiset(r0);
      if r0[i] != e {
        assert r0[i] in multiset(init);
        var k :| 0 <= k < |init| && init[k] == r0[i];
        assert s[k] == init[k] && s[|init|] == last;
      }
    }
  }

  /** Insertion sort by name: the result is ordered by `le` and holds the same entries. */
  function SortByName<S>(le: NameOrder, xs: seq<SchemaEntry<S>>): (r: seq<SchemaEntry<S>>)
    requires TotalOrder(le)
    ensures SortedByName(le, r)
    ensures multiset(r) == multiset(xs)
    decreases |xs|
  {
    if xs == [] then []
    else
      assert xs == xs[..|xs| - 1] + [xs[|xs| - 1]];
      Insert(le, xs[|xs| - 1], SortByName(le, xs[..|xs| - 1]))
  }

  /** No two entries with the same name differ. */
  ghost predicate NamesDetermineEntries<S>(m: multiset<SchemaEntry<S>>)
  {
    forall x, y :: x in m && y in m && x.fnName == y.fnName ==> x == y
  }

  /** Two sorted arrangements of the same entries start with the same entry. */
  lemma SortedHeadsAgree<S>(le: NameOrder, a: seq<SchemaEntry<S>>, b: seq<SchemaEntry<S>>)
    requires TotalOrder(le) && Antisymmetric(le)
    requires SortedByName(le, a) && SortedByName(le, b)
    requires a != [] && multiset(a) == multiset(b) && NamesDetermineEntries(multiset(a))
    ensures b != [] && a[0] == b[0]
  {
    assert a[0] in multiset(a);
    assert b != [];
    assert b[0] in multiset(b);
    var k :| 0 <= k < |b| && b[k] == a[0];
    var m :| 0 <= m < |a| && a[m] == b[0];
    assert le(a[0].fnName, b[0].fnName) by {
      if m > 0 { assert le(a[0].fnName, a[m].fnName); }
    }
    assert le(b[0].fnName, a[0].fnName) by {
      if k > 0 { assert le(b[0].fnName, b[k].fnName); }
    }
  }

  lemma DropCommonHead<S>(a: seq<SchemaEntry<S>>, b: seq<SchemaEntry<S>>)
    requires a != [] && b != [] && a[0] == b[0] && multiset(a) == multiset(b)
    ensures multiset(a[1..]) == multiset(b[1..]) && multiset(a[1..]) <= multiset(a)
  {
    assert a == [a[0]] + a[1..];
    assert b == [b[0]] + b[1..];
    assert multiset(a) == multiset{a[0]} + multiset(a[1..]);
    assert multiset(b) == multiset{a[0]} + multiset(b[1..]);
    assert multiset(a[1..]) == multiset(a) - multiset{a[0]};
    assert multiset(b[1..]) == multiset(b) - multiset{a[0]};
  }

  lemma TailKeepsShape<S>(le: NameOrder, a: seq<SchemaEntry<S>>, sub: multiset<SchemaEntry<S>>)
    requires a != [] && SortedByName(le, a)
    requires sub <= multiset(a) && NamesDetermineEntries(multiset(a))
    ensures SortedByName(le, a[1..]) && NamesDetermineEntries(sub)
  {
    assert forall i :: 0 <= i < |a| - 1 ==> a[1..][i] == a[i + 1];
  }

  lemma SameHeadSameTail<T>(a: seq<T>, b: seq<T>)
    requires a != [] && b != [] && a[0] == b[0] && a[1..] == b[1..]
    ensures a == b
  {
    assert a == [a[0]] + a[1..];
    assert b == [b[0]] + b[1..];
  }

  /** Two sorted arrangements of the same entries coincide when names determine entries:
      the sorted order is determined by the entries alone. */
  lemma {:induction false} SortedArrangementUnique<S>(le: NameOrder, a: seq<SchemaEntry<S>>, b: seq<SchemaEntry<S>>)
    requires TotalOrder(le) && Antisymmetric(le)
    requires SortedByName(le, a) && SortedByName(le, b)
    requires multiset(a) == multiset(b) && NamesDetermineEntries(multiset(a))
    ensures a == b
    decreases |a|
  {
    if a != [] {
      SortedHeadsAgree(le, a, b);
      DropCommonHead(a, b);
      TailKeepsShape(le, a, multiset(a[1..]));
      TailKeepsShape(le, b, multiset(b[1..]));
      SortedArrangementUnique(le, a[1..], b[1..]);
      SameHeadSameTail(a, b);
    } else {
      assert |multiset(b)| == 0;
    }
  }

  /** When names determine entries, the sorted list depends only on which entries there
      are, not on the order the caller listed them in. */
  lemma SortIgnoresInputOrder<S>(le: NameOrder, p: seq<SchemaEntry<S>>, q: seq<SchemaEntry<S>>)
    requires TotalOrder(le) && Antisymmetric(le)
    requires multiset(p) == multiset(q) && NamesDetermineEntries(multiset(p))
    ensures SortByName(le, p) == SortByName(le, q)
  {
    SortedArrangementUnique(le, SortByName(le, p), SortByName(le, q));
  }

  // ---------------------------------------------------------------------------------
  // Rendering

  /** `  "<fnName>": <JSON>,` */
  function Item<S>(stringify: S -> string, e: SchemaEntry<S>): string
  {
    "  \"" + e.fnName + "\": " + stringify(e.schema) + ","
  }

  function Items<S>(stringify: S -> string, xs: seq<SchemaEntry<S>>): (r: seq<string>)
    ensures |r| == |xs| && forall i :: 0 <= i < |xs| ==> r[i] == Item(stringify, xs[i])
  {
    seq(|xs|, i requires 0 <= i < |xs| => Item(stringify, xs[i]))
  }

  /** `lines.join(sep)`. */
  function Join(lines: seq<string>, sep: string): string
  {
    if lines == [] then ""
    else if |lines| == 1 then lines[0]
    else lines[0] + sep + Join(lines[1..], sep)
  }

  /** The lines between the braces of the generated map: the sorted entries' items. */
  function EntryBlock<S>(le: NameOrder, stringify: S -> string, xs: seq<SchemaEntry<S>>): string
    requires TotalOrder(le)
  {
    Join(Items(stringify, SortByName(le, xs)), "\n")
  }

  /** The block has one item per input entry, in ascending name order, and holds each
      input entry's item. */
  lemma {:induction false} EntryBlockLines<S>(le: NameOrder, stringify: S -> string, xs: seq<SchemaEntry<S>>)
    requires TotalOrder(le)
    ensures var sorted := SortByName(le, xs);
      var items := Items(stringify, sorted);
      EntryBlock(le, stringify, xs) == Join(items, "\n") &&
      |items| == |xs| &&
      (forall i, j :: 0 <= i < j < |items| ==> le(sorted[i].fnName, sorted[j].fnName) && items[i] == Item(stringify, sorted[i])) &&
      (forall i :: 0 <= i < |xs| ==> exists k :: 0 <= k < |items| && items[k] == Item(stringify, xs[i]))
  {
    var sorted := SortByName(le, xs);
    SameEntriesSameLength(sorted, xs);
    forall i | 0 <= i < |xs| ensures exists k :: 0 <= k < |sorted| && sorted[k] == xs[i] {
      SameEntriesFound(sorted, xs, i);
    }
  }

  lemma SameEntriesSameLength<T>(a: seq<T>, b: seq<T>)
    requires multiset(a) == multiset(b)
    ensures |a| == |b|
  {
    assert |multiset(a)| == |multiset(b)|;
  }

  lemma SameEntriesFound<T>(a: seq<T>, b: seq<T>, i: nat)
    requires multiset(a) == multiset(b) && i < |b|
    ensures exists k :: 0 <= k < |a| && a[k] == b[i]
  {
    assert b[i] in multiset(b);
    assert b[i] in multiset(a);
  }

  const Banner := "// Auto-generated file - do not edit manually\n"
  const ValidatorComment := "// This file contains Convex ValidatorJSON definitions derived from `returns` in vQuery definitions.\n"
  const TsHeader := Banner + ValidatorComment + "import type { T_SchemaMap } from \"convex-cache\";\n\nexport const schemaMap: T_SchemaMap = {\n"
  const JsHeader := Banner + ValidatorComment + "\nexport const schemaMap = {\n"
  const MapFooter := "\n};\n  "

  /** `buildSchemaFileTs`. */
  function SchemaFileTs<S>(le: NameOrder, stringify: S -> string, xs: seq<SchemaEntry<S>>): string
    requires TotalOrder(le)
  {
    TsHeader + EntryBlock(le, stringify, xs) + MapFooter
  }

  /** `buildSchemaFileJs`. */
  function SchemaFileJs<S>(le: NameOrder, stringify: S -> string, xs: seq<SchemaEntry<S>>): string
    requires TotalOrder(le)
  {
    JsHeader + EntryBlock(le, stringify, xs) + MapFooter
  }

  /** `buildSchemaDtsFile`: the same text whatever the entries. */
  const SchemaDtsFile := Banner + "// Type declarations for the generated schemaMap (ValidatorJSON per function).\n\nimport type { T_SchemaMap } from \"convex-cache\";\n\nexport declare const schemaMap: T_SchemaMap;\n"

  /** The TypeScript and JavaScript files differ only in their headers (the import and
      the type annotation): after the header both are the same text. */
  lemma TsAndJsShareEntries<S>(le: NameOrder, stringify: S -> string, xs: seq<SchemaEntry<S>>)
    requires TotalOrder(le)
    ensures SchemaFileTs(le, stringify, xs)[|TsHeader|..] == SchemaFileJs(le, stringify, xs)[|JsHeader|..]
    ensures TsHeader <= SchemaFileTs(le, stringify, xs) && JsHeader <= SchemaFileJs(le, stringify, xs)
    ensures TsHeader != JsHeader
  {
    var block := EntryBlock(le, stringify, xs);
    HeaderThenRest(TsHeader, block, MapFooter);
    HeaderThenRest(JsHeader, block, MapFooter);
    assert |TsHeader| != |JsHeader|;
  }

  lemma HeaderThenRest(header: string, block: string, footer: string)
    ensures header <= header + block + footer && (header + block + footer)[|header|..] == block + footer
  {
    assert header + block + footer == header + (block + footer);
  }

  /** When names determine entries, both files are the same for every ordering of the
      same entries. */
  lemma FilesIgnoreInputOrder<S>(le: NameOrder, stringify: S -> string, p: seq<SchemaEntry<S>>, q: seq<SchemaEntry<S>>)
    requires TotalOrder(le) && Antisymmetric(le)
    requires multiset(p) == multiset(q) && NamesDetermineEntries(multiset(p))
    ensures SchemaFileTs(le, stringify, p) == SchemaFileTs(le, stringify, q)
    ensures SchemaFileJs(le, stringify, p) == SchemaFileJs(le, stringify, q)
  {
    SortIgnoresInputOrder(le, p, q);
  }
}
