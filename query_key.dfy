/** Cache keys of the query cache (src/convex-cache/core/helpers/utils/query-key.ts):
    `makeQueryKey({ fnKey, args, kind })` composes a namespaced key from the function key
    and the serialised, deep-sorted arguments, and tags it with a short hash.

    `deepSort`, `superjson.stringify` and the hex SHA-256 digest are parameters. */
module QueryKey {

  datatype QueryKind = Query | Paginated

  datatype MadeKey = MadeKey(key: string, tag: string)

  /** The namespace: "pq" for paginated queries, "q" otherwise. */
  function Namespace(kind: QueryKind): string
  {
    if kind == Paginated then "pq" else "q"
  }

  /** `str.slice(0, n)`. */
  function Slice(s: string, n: nat): (r: string)
    ensures |r| == if |s| < n then |s| else n
    ensures r <= s
  {
    if |s| <= n then s else s[..n]
  }

  /** `hashKey`: the first 16 characters of the digest. */
  function HashKey(sha256Hex: string -> string, key: string): string
  {
    Slice(sha256Hex(key), 16)
  }

  function MakeQueryKey<A>(deepSort: A -> A, stringify: A -> string, sha256Hex: string -> string,
                           fnKey: string, args: A, kind: QueryKind): MadeKey
  {
    var argKey := stringify(deepSort(args));
    var queryKey := Namespace(kind) + ":" + fnKey + ":" + argKey;
    MadeKey(queryKey, HashKey(sha256Hex, queryKey))
  }

  datatype ParsedKey = Parsed(kind: QueryKind, fnKey: string, argKey: string) | Unparsed

  /** Reading a key back: the kind from its namespace, then the function key up to the
      next ':', then the rest. */
  function ParseKey(key: string): ParsedKey
  {
    if "q:" <= key then SplitFnKey(Query, key[2..])
    else if "pq:" <= key then SplitFnKey(Paginated, key[3..])
    else Unparsed
  }

  function SplitFnKey(kind: QueryKind, rest: string): ParsedKey
  {
    var i := IndexOfColon(rest);
    if i == |rest| then Unparsed else Parsed(kind, rest[..i], rest[i + 1..])
  }

  /** The position of the first ':' in s, or |s| when there is none. */
  function IndexOfColon(s: string): (i: nat)
    ensures i <= |s| && (i < |s| ==> s[i] == ':') && forall k :: 0 <= k < i ==> s[k] != ':'
  {
    if s == [] then 0 else if s[0] == ':' then 0 else 1 + IndexOfColon(s[1..])
  }

  /** The key is `<ns>:<fnKey>:<serialised args>`: when the function key holds no ':'
      it reads back as exactly these three parts. */
  lemma {:induction false} KeyReadsBack<A>(deepSort: A -> A, stringify: A -> string, sha256Hex: string -> string,
                                           fnKey: string, args: A, kind: QueryKind)
    requires forall k :: 0 <= k < |fnKey| ==> fnKey[k] != ':'
    ensures ParseKey(MakeQueryKey(deepSort, stringify, sha256Hex, fnKey, args, kind).key) ==
              Parsed(kind, fnKey, stringify(deepSort(args)))
  {
    var argKey := stringify(deepSort(args));
    var rest := fnKey + ":" + argKey;
    Regroup(Namespace(kind), ":", fnKey, argKey);
    if kind == Query {
      assert Namespace(kind) + ":" == "q:";
      ParseQueryKey(rest);
    } else {
      assert Namespace(kind) + ":" == "pq:";
      ParsePaginatedKey(rest);
    }
    SplitFnKeyOf(kind, fnKey, argKey);
  }

  /** Reading back a key whose function key is a Convex function name
      `<module>:<export>`: the second ':' after the namespace ends the function key. */
  function ParseNamedKey(key: string): ParsedKey
  {
    match ParseKey(key)
    case Unparsed => Unparsed
    case Parsed(kind, modulePath, rest) =>
      var i := IndexOfColon(rest);
      if i == |rest| then Unparsed else Parsed(kind, modulePath + ":" + rest[..i], rest[i + 1..])
  }

  /** The names `getFunctionName` gives, `<module>:<export>` with no ':' in either part,
      read back from the key as the kind, that name and the serialised arguments. */
  lemma NamedKeyReadsBack<A>(deepSort: A -> A, stringify: A -> string, sha256Hex: string -> string,
                             modulePath: string, exportName: string, args: A, kind: QueryKind)
    requires forall k :: 0 <= k < |modulePath| ==> modulePath[k] != ':'
    requires forall k :: 0 <= k < |exportName| ==> exportName[k] != ':'
    ensures ParseNamedKey(MakeQueryKey(deepSort, stringify, sha256Hex, modulePath + ":" + exportName, args, kind).key) ==
              Parsed(kind, modulePath + ":" + exportName, stringify(deepSort(args)))
  {
    var argKey := stringify(deepSort(args));
    var tail := exportName + ":" + argKey;
    var key := MakeQueryKey(deepSort, stringify, sha256Hex, modulePath + ":" + exportName, args, kind).key;
    assert key == Namespace(kind) + ":" + modulePath + ":" + tail;
    Regroup(Namespace(kind), ":", modulePath, tail);
    if kind == Query {
      assert Namespace(kind) + ":" == "q:";
      ParseQueryKey(modulePath + ":" + tail);
    } else {
      assert Namespace(kind) + ":" == "pq:";
      ParsePaginatedKey(modulePath + ":" + tail);
    }
    SplitFnKeyOf(kind, modulePath, tail);
    assert ParseKey(key) == Parsed(kind, modulePath, tail);
    ColonAfter(exportName, argKey);
    assert tail[..|exportName|] == exportName && tail[|exportName| + 1..] == argKey;
  }

  lemma Regroup(ns: string, sep: string, fnKey: string, argKey: string)
    ensures ns + sep + fnKey + sep + argKey == (ns + sep) + (fnKey + sep + argKey)
  {
  }

  lemma ParseQueryKey(rest: string)
    ensures ParseKey("q:" + rest) == SplitFnKey(Query, rest)
  {
    assert ("q:" + rest)[2..] == rest;
  }

  lemma ParsePaginatedKey(rest: string)
    ensures ParseKey("pq:" + rest) == SplitFnKey(Paginated, rest)
  {
    assert ("pq:" + rest)[0] == 'p';
    assert ("pq:" + rest)[3..] == rest;
  }

  lemma SplitFnKeyOf(kind: QueryKind, fnKey: string, argKey: string)
    requires forall k :: 0 <= k < |fnKey| ==> fnKey[k] != ':'
    ensures SplitFnKey(kind, fnKey + ":" + argKey) == Parsed(kind, fnKey, argKey)
  {
    var rest := fnKey + ":" + argKey;
    ColonAfter(fnKey, argKey);
    assert rest[..|fnKey|] == fnKey && rest[|fnKey| + 1..] == argKey;
  }

  lemma ColonAfter(p: string, t: string)
    requires forall k :: 0 <= k < |p| ==> p[k] != ':'
    ensures IndexOfColon(p + ":" + t) == |p|
    decreases |p|
  {
    if p != [] {
      assert (p + ":" + t)[1..] == p[1..] + ":" + t;
      ColonAfter(p[1..], t);
    } else {
      assert (p + ":" + t)[0] == ':';
    }
  }

  /** A query key and a paginated key never coincide: their first characters differ. */
  lemma KindsNeverCollide<A>(deepSort: A -> A, stringify: A -> string, sha256Hex: string -> string,
                             fnKey1: string, args1: A, fnKey2: string, args2: A)
    ensures MakeQueryKey(deepSort, stringify, sha256Hex, fnKey1, args1, Query).key !=
              MakeQueryKey(deepSort, stringify, sha256Hex, fnKey2, args2, Paginated).key
  {
    var k1 := MakeQueryKey(deepSort, stringify, sha256Hex, fnKey1, args1, Query).key;
    var k2 := MakeQueryKey(deepSort, stringify, sha256Hex, fnKey2, args2, Paginated).key;
    assert k1[0] == 'q' && k2[0] == 'p';
  }

  /** The tag is a prefix of the key's digest; with a 64-character SHA-256 hex digest it
      has 16 characters. */
  lemma TagIsDigestPrefix<A>(deepSort: A -> A, stringify: A -> string, sha256Hex: string -> string,
                             fnKey: string, args: A, kind: QueryKind)
    ensures var made := MakeQueryKey(deepSort, stringify, sha256Hex, fnKey, args, kind);
            made.tag <= sha256Hex(made.key) &&
            (|sha256Hex(made.key)| == 64 ==> |made.tag| == 16)
  {
  }

  /** Arguments that deep-sort to the same value give the same key and tag. */
  lemma SortedArgsDecide<A>(deepSort: A -> A, stringify: A -> string, sha256Hex: string -> string,
                            fnKey: string, args1: A, args2: A, kind: QueryKind)
    requires deepSort(args1) == deepSort(args2)
    ensures MakeQueryKey(deepSort, stringify, sha256Hex, fnKey, args1, kind) ==
              MakeQueryKey(deepSort, stringify, sha256Hex, fnKey, args2, kind)
  {
  }
}
