/** The shape shared by the per-export loops of `extractSchema` and
    `extractSchemasFromFile`: walk `Object.entries(mod)` in order and push whatever the
    checks for one export produce, skipping (`continue`) the exports that fail them. */
module ExportScan {
  import opened Wrappers
  import opened JsValues

  /** One `[exportName, value]` pair of `Object.entries(mod)`. */
  datatype Export = Export(exportName: string, value: JsValue)

  /** What the loop has pushed after visiting xs, given what one visit produces. */
  function Kept<A, B>(xs: seq<A>, emit: A -> Option<B>): seq<B>
  {
    if xs == [] then []
    else Kept(xs[..|xs| - 1], emit) + (if emit(xs[|xs| - 1]).Some? then [emit(xs[|xs| - 1]).value] else [])
  }

  lemma KeptSnoc<A, B>(xs: seq<A>, i: nat, emit: A -> Option<B>)
    requires i < |xs|
    ensures Kept(xs[..i + 1], emit) == Kept(xs[..i], emit) + (if emit(xs[i]).Some? then [emit(xs[i]).value] else [])
  {
    assert xs[..i + 1][..i] == xs[..i];
  }

  /** Visiting a + b pushes what visiting a pushes, then what visiting b pushes: the
      entries come out in export order. */
  lemma {:induction false} KeptAppend<A, B>(a: seq<A>, b: seq<A>, emit: A -> Option<B>)
    ensures Kept(a + b, emit) == Kept(a, emit) + Kept(b, emit)
    decreases |b|
  {
    if b != [] {
      var b0 := b[..|b| - 1];
      KeptAppend(a, b0, emit);
      assert (a + b)[..|a + b| - 1] == a + b0;
      assert (a + b)[|a + b| - 1] == b[|b| - 1];
    } else {
      assert a + b == a;
    }
  }

  /** An export that produces nothing is skipped without disturbing the others. */
  lemma KeptSkip<A, B>(a: seq<A>, x: A, b: seq<A>, emit: A -> Option<B>)
    requires emit(x).None?
    ensures Kept(a + [x] + b, emit) == Kept(a, emit) + Kept(b, emit)
  {
    KeptAppend(a + [x], b, emit);
    KeptAppend(a, [x], emit);
    KeptNone([x], emit);
  }

  /** Never more entries than exports. */
  lemma {:induction false} KeptLength<A, B>(xs: seq<A>, emit: A -> Option<B>)
    ensures |Kept(xs, emit)| <= |xs|
    decreases |xs|
  {
    if xs != [] {
      KeptLength(xs[..|xs| - 1], emit);
    }
  }

  /** Every entry pushed is what some export produced, and every export that produced
      something contributes it. */
  lemma {:induction false} KeptExactly<A, B>(xs: seq<A>, emit: A -> Option<B>)
    ensures forall y :: y in Kept(xs, emit) <==> exists i :: 0 <= i < |xs| && emit(xs[i]) == Some(y)
    decreases |xs|
  {
    if xs != [] {
      var init := xs[..|xs| - 1];
      var last := xs[|xs| - 1];
      KeptExactly(init, emit);
      forall y ensures y in Kept(xs, emit) <==> exists i :: 0 <= i < |xs| && emit(xs[i]) == Some(y) {
        if exists i :: 0 <= i < |xs| && emit(xs[i]) == Some(y) {
          var i :| 0 <= i < |xs| && emit(xs[i]) == Some(y);
          if i < |init| {
            assert init[i] == xs[i];
          }
        }
        if exists i :: 0 <= i < |init| && emit(init[i]) == Some(y) {
          var i :| 0 <= i < |init| && emit(init[i]) == Some(y);
          assert xs[i] == init[i];
        }
      }
    }
  }

  /** KeptExactly for one candidate entry. */
  lemma KeptMember<A, B>(xs: seq<A>, emit: A -> Option<B>, y: B)
    ensures y in Kept(xs, emit) <==> exists i :: 0 <= i < |xs| && emit(xs[i]) == Some(y)
  {
    KeptExactly(xs, emit);
  }

  /** When no export produces anything the loop pushes nothing. */
  lemma {:induction false} KeptNone<A, B>(xs: seq<A>, emit: A -> Option<B>)
    requires forall i :: 0 <= i < |xs| ==> emit(xs[i]).None?
    ensures Kept(xs, emit) == []
    decreases |xs|
  {
    if xs != [] {
      var init := xs[..|xs| - 1];
      assert forall i :: 0 <= i < |init| ==> init[i] == xs[i];
      KeptNone(init, emit);
    }
  }
}
