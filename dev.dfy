/** The parts of the `dev` command (src/cli/fns/dev.ts) that are not async glue: the
    ignore rule for watch notifications and the watcher's configuration. */
module Dev {
  import opened Wrappers
  import opened DirWatching
  import opened JsValues

  /** Relative paths the dev loop does not react to: anything whose text starts with
      "_generated" or ".", or ends with "~" or ".swp". */
  predicate ShouldIgnore(rel: string)
  {
    StartsWith(rel, "_generated") || StartsWith(rel, ".") || EndsWith(rel, "~") || EndsWith(rel, ".swp")
  }

  /** The rule is a plain text test on the relative path: the generated directory is
      skipped, and so is a file merely named like it. */
  lemma GeneratedPathsIgnored()
    ensures forall rest :: ShouldIgnore("_generated" + rest)
    ensures ShouldIgnore("_generated/api.d.ts") && ShouldIgnore("_generatedX.ts")
  {
    forall rest ensures ShouldIgnore("_generated" + rest) {
      assert "_generated" <= "_generated" + rest;
    }
    assert "_generated" <= "_generated/api.d.ts";
    assert "_generated" <= "_generatedX.ts";
  }

  /** Dot files and editor backup and swap files are skipped. */
  lemma EditorFilesIgnored()
    ensures forall rest :: ShouldIgnore("." + rest)
    ensures forall p :: ShouldIgnore(p + "~") && ShouldIgnore(p + ".swp")
    ensures ShouldIgnore(".env.local") && ShouldIgnore("notes.ts~") && ShouldIgnore("schema.ts.swp")
  {
    forall rest ensures ShouldIgnore("." + rest) {
      assert "." <= "." + rest;
    }
    forall p ensures ShouldIgnore(p + "~") && ShouldIgnore(p + ".swp") {
      assert (p + "~")[|p|..] == "~";
      assert (p + ".swp")[|p|..] == ".swp";
    }
    assert "." <= ".env.local";
    assert "notes.ts~"[8..] == "~";
    assert "schema.ts.swp"[9..] == ".swp";
  }

  /** An ordinary source file, a nested `_generated` directory and the empty path are
      not skipped: only the start of the whole path is tested for "_generated". */
  lemma SourcesKept()
    ensures !ShouldIgnore("queries.ts") && !ShouldIgnore("sub/_generated/x.ts") && !ShouldIgnore("")
  {
    assert "queries.ts"[0] == 'q' && "queries.ts"[9] == 's' && "queries.ts"[6..] != ".swp";
    assert "sub/_generated/x.ts"[0] == 's' && "sub/_generated/x.ts"[18] == 's';
    assert "sub/_generated/x.ts"[15..] != ".swp";
  }

  /** A path that starts with neither '.' nor '_' and whose last character is neither
      '~' nor 'p' (so every `.ts` and `.js` source outside `_generated`) is kept. */
  lemma PlainSourcesKept()
    ensures forall rel :: rel != [] && rel[0] != '.' && rel[0] != '_' && rel[|rel| - 1] != '~' && rel[|rel| - 1] != 'p' ==>
                          !ShouldIgnore(rel)
  {
    forall rel | rel != [] && rel[0] != '.' && rel[0] != '_' && rel[|rel| - 1] != '~' && rel[|rel| - 1] != 'p' {
      PlainSourceKept(rel);
    }
  }

  lemma PlainSourceKept(rel: string)
    requires rel != [] && rel[0] != '.' && rel[0] != '_' && rel[|rel| - 1] != '~' && rel[|rel| - 1] != 'p'
    ensures !ShouldIgnore(rel)
  {
    assert "_generated"[0] == '_' && "."[0] == '.';
  }

  /** Ignoring is closed under appending to an ignored prefix. */
  lemma {:induction false} IgnoredPrefixExtends(p: string, rest: string)
    requires StartsWith(p, "_generated") || StartsWith(p, ".")
    ensures ShouldIgnore(p + rest)
  {
    assert p <= p + rest;
  }

  /** The watcher `dev` creates: the given root, recursive, 200 ms, ShouldIgnore. */
  function DevWatcherOptions(absoluteDir: string): (o: Options)
    ensures o.rootDir == absoluteDir
    ensures o.recursive == Some(true) && o.debounceMs == Some(DefaultDebounceMs)
    ensures o.shouldIgnore.Some? && forall rel :: o.shouldIgnore.value(rel) == ShouldIgnore(rel)
  {
    Options(absoluteDir, Some(true), Some(200), Some(ShouldIgnore))
  }

  /** Under the dev configuration a notification is accepted exactly when its path is
      non-empty text (or a Buffer) that ShouldIgnore does not match. */
  lemma DevAccepts(absoluteDir: string, f: FileName)
    ensures Accepted(f, DevWatcherOptions(absoluteDir).shouldIgnore) <==> IsTruthy(f) && !ShouldIgnore(RelText(f))
  {
  }
}
