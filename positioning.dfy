/** The text-position state machine and the text-run emitter: the active
    text matrix, the line coordinate derived from it, and the item sequence
    that Tj and TJ append to. */
module Positioning {
  import opened Base

  /** The text matrix [a b c d e f]: an affine map from text space to page space. */
  datatype Matrix = Matrix(a: real, b: real, c: real, d: real, e: real, f: real)

  const Identity := Matrix(1.0, 0.0, 0.0, 1.0, 0.0, 0.0)

  /** The translation (e, f) projected onto the normal (-b, a) of the baseline
      direction (a, b): constant along one baseline, whatever the rotation. */
  function LineCoordinate(m: Matrix): real
  {
    m.e * -m.b + m.f * m.a
  }

  /** Upright text (a = 1, b = 0) has its lines at constant f, the vertical
      page position; text turned a quarter (a = 0) at constant e, scaled by
      -b. */
  lemma AxisAlignedLines(m: Matrix)
    ensures m.a == 1.0 && m.b == 0.0 ==> LineCoordinate(m) == m.f
    ensures m.a == 0.0 ==> LineCoordinate(m) == -m.b * m.e
  {
  }

  /** The Td and TD operators: move by (tx, ty) measured in the current basis,
      as in section 9.4.2 of ISO 32000-1. The basis is unchanged. */
  function Translate(m: Matrix, tx: real, ty: real): (r: Matrix)
    ensures r.a == m.a && r.b == m.b && r.c == m.c && r.d == m.d
  {
    Matrix(m.a, m.b, m.c, m.d, m.e + tx * m.a + ty * m.c, m.f + tx * m.b + ty * m.d)
  }

  /** A move changes the line coordinate by ty times the determinant of the
      basis, so a move along the baseline (ty = 0) never leaves the line. */
  lemma TranslateMovesLine(m: Matrix, tx: real, ty: real)
    ensures LineCoordinate(Translate(m, tx, ty)) == LineCoordinate(m) + ty * (m.a * m.d - m.b * m.c)
  {
  }

  /** The active matrix, the line coordinate of the last emitted run (None
      before the first), and the items emitted so far. */
  datatype State = State(m: Matrix, last: Option<real>, items: seq<Bytes>)

  const Initial := State(Identity, None, [])

  /** A run emitted now starts a new line: there was an earlier run, and the
      line coordinate has moved by more than the tolerance since. */
  predicate BreaksLine(st: State, tol: real)
  {
    st.last.Some? && AbsReal(LineCoordinate(st.m) - st.last.value) > tol
  }

  /** Append one run, preceded by a break marker when it starts a new line. */
  function Emit(st: State, run: Bytes, tol: real): State
  {
    var y := LineCoordinate(st.m);
    State(st.m, Some(y), st.items + (if BreaksLine(st, tol) then [[]] else []) + [run])
  }

  /** Every break marker is immediately followed by a text run. */
  predicate Separated(items: seq<Bytes>)
  {
    forall k :: 0 <= k < |items| && items[k] == [] ==> k + 1 < |items| && items[k + 1] != []
  }

  /** The invariant of the emitter: markers separate runs, and nothing has
      been emitted while there is no last line coordinate. */
  predicate Consistent(st: State)
  {
    Separated(st.items) && (st.last.None? ==> st.items == [])
  }

  lemma EmitConsistent(st: State, run: Bytes, tol: real)
    requires Consistent(st) && run != []
    ensures Consistent(Emit(st, run, tol))
  {
  }

  // ---------------------------------------------------------------------
  // TJ arrays and the kerning rule

  /** An element of a TJ array: a kerning adjustment or a string of glyphs. */
  datatype Elem = Kern(amount: real) | Glyphs(text: Bytes)

  /** Kerning of at most this size (in thousandths of text space) is treated
      as insignificant; larger kerning is a gap between runs. */
  const KerningThreshold: real := 500.0

  predicate EndsRun(amount: real)
  {
    AbsReal(amount) > KerningThreshold
  }

  /** Walk a TJ array with the run accumulated so far. */
  function ShowFrom(st: State, run: Bytes, elems: seq<Elem>, tol: real): State
    decreases |elems|
  {
    if elems == [] then
      (if run == [] then st else Emit(st, run, tol))
    else match elems[0]
      case Glyphs(t) => ShowFrom(st, run + t, elems[1..], tol)
      case Kern(n) =>
        if EndsRun(n) then ShowFrom(if run == [] then st else Emit(st, run, tol), [], elems[1..], tol)
        else ShowFrom(st, run, elems[1..], tol)
  }

  /** The TJ operator (Tj is TJ with a one-string array). */
  function Show(st: State, elems: seq<Elem>, tol: real): State
  {
    ShowFrom(st, [], elems, tol)
  }

  function Flush(run: Bytes): seq<Bytes>
  {
    if run == [] then [] else [run]
  }

  /** The runs of a TJ array on their own, without any position: a reference
      definition of the kerning rule. */
  function RunsFrom(run: Bytes, elems: seq<Elem>): (r: seq<Bytes>)
    ensures forall k :: 0 <= k < |r| ==> r[k] != []
    decreases |elems|
  {
    if elems == [] then Flush(run)
    else match elems[0]
      case Glyphs(t) => RunsFrom(run + t, elems[1..])
      case Kern(n) =>
        if EndsRun(n) then Flush(run) + RunsFrom([], elems[1..])
        else RunsFrom(run, elems[1..])
  }

  function Runs(elems: seq<Elem>): seq<Bytes>
  {
    RunsFrom([], elems)
  }

  /** All the glyph bytes of a TJ array, in order. */
  function Text(elems: seq<Elem>): Bytes
  {
    if elems == [] then []
    else (match elems[0] case Glyphs(t) => t case Kern(_) => []) + Text(elems[1..])
  }

  /** No glyph is lost or reordered: the runs concatenate to the array's text. */
  lemma {:induction false} RunsKeepText(run: Bytes, elems: seq<Elem>)
    ensures Concat(RunsFrom(run, elems)) == run + Text(elems)
    decreases |elems|
  {
    if elems == [] {
      assert run + [] == run;
    } else {
      match elems[0]
      case Glyphs(t) =>
        RunsKeepText(run + t, elems[1..]);
        assert run + t + Text(elems[1..]) == run + (t + Text(elems[1..]));
      case Kern(n) =>
        RunsKeepText([], elems[1..]);
        assert [] + Text(elems[1..]) == Text(elems[1..]);
        if EndsRun(n) {
          ConcatAppend(Flush(run), RunsFrom([], elems[1..]));
          assert Concat(Flush(run)) == run by {
            if run != [] {
              assert Concat(Flush(run)) == run + Concat([]);
            }
          }
        } else {
          RunsKeepText(run, elems[1..]);
        }
    }
  }

  /** Kerning within the threshold never ends a run. */
  predicate SmallKerning(elems: seq<Elem>)
  {
    forall k :: 0 <= k < |elems| ==> elems[k].Kern? ==> !EndsRun(elems[k].amount)
  }

  /** Strings joined only by small kerning (or none) form a single run. */
  lemma {:induction false} SmallKerningJoins(run: Bytes, elems: seq<Elem>)
    requires SmallKerning(elems)
    ensures RunsFrom(run, elems) == Flush(run + Text(elems))
    decreases |elems|
  {
    if elems == [] {
      assert run + [] == run;
    } else {
      assert SmallKerning(elems[1..]) by {
        forall k | 0 <= k < |elems[1..]| ensures elems[1..][k] == elems[k + 1] { }
      }
      match elems[0]
      case Glyphs(t) =>
        SmallKerningJoins(run + t, elems[1..]);
        assert run + t + Text(elems[1..]) == run + (t + Text(elems[1..]));
      case Kern(n) =>
        assert !EndsRun(n);
        SmallKerningJoins(run, elems[1..]);
        assert Text(elems) == Text(elems[1..]);
    }
  }

  /** Kerning beyond the threshold closes the current run and starts a new
      one: the runs before and after it are kept, in order. */
  lemma {:induction false} LargeKerningSplits(run: Bytes, xs: seq<Elem>, n: real, ys: seq<Elem>)
    requires EndsRun(n)
    ensures RunsFrom(run, xs + [Kern(n)] + ys) == RunsFrom(run, xs) + Runs(ys)
    decreases |xs|
  {
    var all := xs + [Kern(n)] + ys;
    if xs == [] {
      assert all == [Kern(n)] + ys && all[1..] == ys;
    } else {
      assert all[0] == xs[0] && all[1..] == xs[1..] + [Kern(n)] + ys;
      match xs[0]
      case Glyphs(t) =>
        LargeKerningSplits(run + t, xs[1..], n, ys);
      case Kern(m) =>
        if EndsRun(m) {
          LargeKerningSplits([], xs[1..], n, ys);
        } else {
          LargeKerningSplits(run, xs[1..], n, ys);
        }
    }
  }

  /** Kerning within the threshold is invisible to the runs. */
  lemma {:induction false} SmallKerningInvisible(run: Bytes, xs: seq<Elem>, n: real, ys: seq<Elem>)
    requires !EndsRun(n)
    ensures RunsFrom(run, xs + [Kern(n)] + ys) == RunsFrom(run, xs + ys)
    decreases |xs|
  {
    var all := xs + [Kern(n)] + ys;
    if xs == [] {
      assert all == [Kern(n)] + ys && all[1..] == ys && xs + ys == ys;
    } else {
      assert all[0] == xs[0] && all[1..] == xs[1..] + [Kern(n)] + ys;
      assert (xs + ys)[0] == xs[0] && (xs + ys)[1..] == xs[1..] + ys;
      match xs[0]
      case Glyphs(t) =>
        SmallKerningInvisible(run + t, xs[1..], n, ys);
      case Kern(m) =>
        if EndsRun(m) {
          SmallKerningInvisible([], xs[1..], n, ys);
        } else {
          SmallKerningInvisible(run, xs[1..], n, ys);
        }
    }
  }

  /** Emit several runs one after another. */
  function EmitAll(st: State, runs: seq<Bytes>, tol: real): State
    decreases |runs|
  {
    if runs == [] then st else EmitAll(Emit(st, runs[0], tol), runs[1..], tol)
  }

  lemma {:induction false} ShowFromEmitsRuns(st: State, run: Bytes, elems: seq<Elem>, tol: real)
    ensures ShowFrom(st, run, elems, tol) == EmitAll(st, RunsFrom(run, elems), tol)
    decreases |elems|
  {
    if elems == [] {
      if run != [] {
        assert EmitAll(st, [run], tol) == EmitAll(Emit(st, run, tol), [], tol);
      }
    } else {
      match elems[0]
      case Glyphs(t) =>
        ShowFromEmitsRuns(st, run + t, elems[1..], tol);
      case Kern(n) =>
        if EndsRun(n) {
          var st' := if run == [] then st else Emit(st, run, tol);
          ShowFromEmitsRuns(st', [], elems[1..], tol);
          EmitAllAppend(st, Flush(run), RunsFrom([], elems[1..]), tol);
          if run != [] {
            assert EmitAll(st, [run], tol) == EmitAll(Emit(st, run, tol), [], tol);
          }
        } else {
          ShowFromEmitsRuns(st, run, elems[1..], tol);
        }
    }
  }

  lemma {:induction false} EmitAllAppend(st: State, xs: seq<Bytes>, ys: seq<Bytes>, tol: real)
    ensures EmitAll(st, xs + ys, tol) == EmitAll(EmitAll(st, xs, tol), ys, tol)
    decreases |xs|
  {
    if xs == [] {
      assert xs + ys == ys;
    } else {
      assert (xs + ys)[0] == xs[0] && (xs + ys)[1..] == xs[1..] + ys;
      EmitAllAppend(Emit(st, xs[0], tol), xs[1..], ys, tol);
    }
  }

  /** Runs emitted under one unchanged matrix share one line: only the first
      can be preceded by a marker. */
  lemma {:induction false} EmitAllSameLine(st: State, runs: seq<Bytes>, tol: real)
    requires tol >= 0.0
    ensures EmitAll(st, runs, tol)
         == State(st.m,
                  if runs == [] then st.last else Some(LineCoordinate(st.m)),
                  st.items + (if runs != [] && BreaksLine(st, tol) then [[]] else []) + runs)
    decreases |runs|
  {
    if runs == [] {
      assert st.items + [] + [] == st.items;
    } else {
      var st' := Emit(st, runs[0], tol);
      assert !BreaksLine(st', tol);
      EmitAllSameLine(st', runs[1..], tol);
      assert st'.items + [] + runs[1..] == st.items + (if BreaksLine(st, tol) then [[]] else []) + runs;
    }
  }

  /** What one TJ does to the state: the matrix stays, the runs of the array
      are appended in order, preceded by one break marker exactly when the
      first of them starts a new line, and the last line coordinate becomes
      the current one if anything was emitted. */
  lemma ShowLayout(st: State, elems: seq<Elem>, tol: real)
    requires tol >= 0.0
    ensures Show(st, elems, tol)
         == State(st.m,
                  if Runs(elems) == [] then st.last else Some(LineCoordinate(st.m)),
                  st.items + (if Runs(elems) != [] && BreaksLine(st, tol) then [[]] else []) + Runs(elems))
  {
    ShowFromEmitsRuns(st, [], elems, tol);
    EmitAllSameLine(st, Runs(elems), tol);
  }

  /** Showing text keeps the emitter's invariant. */
  lemma {:induction false} EmitAllConsistent(st: State, runs: seq<Bytes>, tol: real)
    requires Consistent(st)
    requires forall k :: 0 <= k < |runs| ==> runs[k] != []
    ensures Consistent(EmitAll(st, runs, tol))
    decreases |runs|
  {
    if runs != [] {
      EmitConsistent(st, runs[0], tol);
      EmitAllConsistent(Emit(st, runs[0], tol), runs[1..], tol);
    }
  }

  lemma ShowConsistent(st: State, elems: seq<Elem>, tol: real)
    requires Consistent(st)
    ensures Consistent(Show(st, elems, tol))
  {
    ShowFromEmitsRuns(st, [], elems, tol);
    EmitAllConsistent(st, Runs(elems), tol);
  }

  /** Whatever the matrices and the tolerance, a TJ adds exactly its runs to
      the text runs emitted so far. */
  lemma {:induction false} ShowFromKeepsText(st: State, run: Bytes, elems: seq<Elem>, tol: real)
    ensures NonEmpty(ShowFrom(st, run, elems, tol).items) == NonEmpty(st.items) + RunsFrom(run, elems)
    decreases |elems|
  {
    if elems == [] {
      if run != [] {
        EmitKeepsText(st, run, tol);
      } else {
        assert NonEmpty(st.items) + [] == NonEmpty(st.items);
      }
    } else {
      match elems[0]
      case Glyphs(t) =>
        ShowFromKeepsText(st, run + t, elems[1..], tol);
      case Kern(n) =>
        if EndsRun(n) {
          var st' := if run == [] then st else Emit(st, run, tol);
          ShowFromKeepsText(st', [], elems[1..], tol);
          if run != [] {
            EmitKeepsText(st, run, tol);
          }
        } else {
          ShowFromKeepsText(st, run, elems[1..], tol);
        }
    }
  }

  lemma EmitKeepsText(st: State, run: Bytes, tol: real)
    requires run != []
    ensures NonEmpty(Emit(st, run, tol).items) == NonEmpty(st.items) + [run]
  {
    var marker: seq<Bytes> := if BreaksLine(st, tol) then [[]] else [];
    NonEmptyAppend(st.items + marker, [run]);
    NonEmptyAppend(st.items, marker);
    assert NonEmpty(marker) == [] by {
      if marker != [] {
        assert NonEmpty(marker) == [] + NonEmpty(marker[1..]);
      }
    }
    assert NonEmpty([run]) == [run] + NonEmpty([run][1..]);
  }

  // ---------------------------------------------------------------------
  // The state as the extractor holds it: fields updated in place

  class TextState {
    var a: real
    var b: real
    var c: real
    var d: real
    var e: real
    var f: real
    var last: Option<real>
    var items: seq<Bytes>
    const tolerance: real

    function Snapshot(): State
      reads this
    {
      State(Matrix(a, b, c, d, e, f), last, items)
    }

    ghost predicate Valid()
      reads this
    {
      Consistent(Snapshot())
    }

    constructor (tolerance: real)
      ensures Valid() && Snapshot() == Initial && this.tolerance == tolerance
    {
      a, b, c, d, e, f := 1.0, 0.0, 0.0, 1.0, 0.0, 0.0;
      last := None;
      items := [];
      this.tolerance := tolerance;
    }

    /** Tm: replace the matrix wholesale. */
    method SetTextMatrix(m: Matrix)
      requires Valid()
      modifies this
      ensures Valid() && Snapshot() == old(Snapshot()).(m := m)
    {
      a, b, c, d, e, f := m.a, m.b, m.c, m.d, m.e, m.f;
    }

    /** Td and TD: move within the current basis. */
    method MoveTextPosition(tx: real, ty: real)
      requires Valid()
      modifies this
      ensures Valid() && Snapshot() == old(Snapshot()).(m := Translate(old(Snapshot()).m, tx, ty))
    {
      e, f := e + tx * a + ty * c, f + tx * b + ty * d;
    }

    method EmitRun(run: Bytes)
      requires Valid() && run != []
      modifies this
      ensures Valid() && Snapshot() == Emit(old(Snapshot()), run, tolerance)
    {
      EmitConsistent(Snapshot(), run, tolerance);
      ghost var before := Snapshot();
      var y := e * -b + f * a;
      assert y == LineCoordinate(before.m);
      var marker: seq<Bytes> := [];
      if last.Some? && AbsReal(y - last.value) > tolerance {
        marker := [[]];
      }
      items := items + marker + [run];
      last := Some(y);
    }

    /** TJ: walk the array, joining strings across small kerning and emitting
      each run when large kerning or the end of the array closes it. */
    method ShowText(elems: seq<Elem>)
      requires Valid()
      modifies this
      ensures Valid() && Snapshot() == Show(old(Snapshot()), elems, tolerance)
    {
      var run: Bytes := [];
      var i := 0;
      while i < |elems|
        invariant i <= |elems| && Valid()
        invariant ShowFrom(Snapshot(), run, elems[i..], tolerance) == Show(old(Snapshot()), elems, tolerance)
      {
        assert elems[i..][1..] == elems[i + 1..];
        match elems[i] {
          case Glyphs(t) =>
            run := run + t;
          case Kern(n) =>
            if AbsReal(n) > KerningThreshold {
              if run != [] {
                EmitRun(run);
              }
              run := [];
            }
        }
        i := i + 1;
      }
      if run != [] {
        EmitRun(run);
      }
    }
  }
}
