/** The content streams of the extractor's tests, written command by
    command, and what ExtractTextItems and groupIntoLines make of them.
    Numbers are written digit for digit as in the streams (a Decimal gives
    the sign, the digits before the point and how many, the digits after
    it and how many). The tolerance is a parameter: each lemma requires
    only the range of tolerances its stream needs. */
module Scenarios {
  import opened Base
  import opened Lexer
  import opened Positioning
  import opened Extractor
  import opened Streams
  import opened Lines

  // ---------------------------------------------------------------------
  // Commands

  /** The operator names the scenarios use, and the line break after each
      command. */
  const Newline: Bytes := "\n"
  const BeginName: Bytes := "BT"
  const EndName: Bytes := "ET"
  const ShowName: Bytes := "Tj"
  const ArrayName: Bytes := "TJ"
  const MatrixName: Bytes := "Tm"
  const MoveName: Bytes := "TD"

  /** An operator with no operands, on a line of its own. */
  function Bare(name: Bytes): Command
  {
    Command([], name, Newline)
  }

  /** `a b c d e f Tm`, with the six operands given in order. */
  function Tm(ds: seq<Decimal>): Command
    requires |ds| == 6
  {
    Command([NumberArg(ds[0]), NumberArg(ds[1]), NumberArg(ds[2]), NumberArg(ds[3]), NumberArg(ds[4]), NumberArg(ds[5])], MatrixName, Newline)
  }

  /** The matrix a Tm command sets. */
  function MatrixOf(ds: seq<Decimal>): Matrix
    requires |ds| == 6
  {
    Matrix(DecimalValue(ds[0]), DecimalValue(ds[1]), DecimalValue(ds[2]), DecimalValue(ds[3]), DecimalValue(ds[4]), DecimalValue(ds[5]))
  }

  function TD(tx: Decimal, ty: Decimal): Command
  {
    Command([NumberArg(tx), NumberArg(ty)], MoveName, Newline)
  }

  function Tj(s: Bytes): Command
  {
    Command([StringArg(s)], ShowName, Newline)
  }

  function TJ(parts: seq<Part>): Command
  {
    Command([ArrayArg(parts)], ArrayName, Newline)
  }

  /** The last command of a stream: nothing follows it. */
  function Final(c: Command): Command
  {
    c.(after := [])
  }

  const EndStream := Then(Final(Bare(EndName)), End)

  /** Whole numbers, written without a point. */
  function Whole(n: nat, width: nat): Decimal
  {
    Decimal(false, n, width, 0, 0)
  }

  function Minus(d: Decimal): Decimal
  {
    d.(negative := true)
  }

  // ---------------------------------------------------------------------
  // The operator names the streams use

  lemma TextNames()
    ensures Classify(BeginName) == BeginText && Classify(EndName) == EndText
    ensures Classify(ShowName) == ShowString && Classify(ArrayName) == ShowArray
    ensures Classify(MatrixName) == SetMatrix && Classify(MoveName) == MoveSetLeading
  {
  }

  lemma TextNamesOk()
    ensures NameOk(BeginName) && NameOk(EndName) && NameOk(ShowName) && NameOk(ArrayName) && NameOk(MatrixName) && NameOk(MoveName)
  {
  }

  // ---------------------------------------------------------------------
  // Writable streams, command by command

  lemma ShowOk(s: Bytes, rest: Script)
    requires ScriptOk(rest)
    ensures ScriptOk(Then(Tj(s), rest))
  {
  }

  lemma MoveOk(tx: Decimal, ty: Decimal, rest: Script)
    requires ValidDecimal(tx) && ValidDecimal(ty) && ScriptOk(rest)
    ensures ScriptOk(Then(TD(tx, ty), rest))
  {
  }

  lemma ArrayOk(parts: seq<Part>, rest: Script)
    requires forall k :: 0 <= k < |parts| ==> parts[k].KernPart? ==> ValidDecimal(parts[k].amount)
    requires ScriptOk(rest)
    ensures ScriptOk(Then(TJ(parts), rest))
  {
  }

  lemma MatrixOk(ds: seq<Decimal>, rest: Script)
    requires ValidMatrix(ds) && ScriptOk(rest)
    ensures ScriptOk(Then(Tm(ds), rest))
  {
  }

  lemma EndOk()
    ensures ScriptOk(EndStream)
  {
  }

  lemma BeginOk(rest: Script)
    requires ScriptOk(rest)
    ensures ScriptOk(Then(Bare(BeginName), rest))
  {
  }

  /** Every operand of a Tm is a decimal written as its digits. */
  predicate ValidMatrix(ds: seq<Decimal>)
  {
    |ds| == 6 && forall k :: 0 <= k < 6 ==> ValidDecimal(ds[k])
  }

  lemma PlacementOk(ds: seq<Decimal>, s: Bytes, rest: Script)
    requires ValidMatrix(ds) && ScriptOk(rest)
    ensures ScriptOk(Then(Tm(ds), Then(Tj(s), rest)))
  {
  }

  // ---------------------------------------------------------------------
  // What each command does

  lemma RunTm(st: State, ds: seq<Decimal>, tol: real)
    requires |ds| == 6
    ensures RunCommand(st, Tm(ds), tol) == st.(m := MatrixOf(ds))
  {
  }

  lemma RunTD(st: State, tx: Decimal, ty: Decimal, tol: real)
    ensures RunCommand(st, TD(tx, ty), tol) == st.(m := Translate(st.m, DecimalValue(tx), DecimalValue(ty)))
  {
  }

  lemma RunTj(st: State, s: Bytes, tol: real)
    requires s != []
    ensures RunCommand(st, Tj(s), tol) == Emit(st, s, tol)
  {
    assert ArgOperands([StringArg(s)]) == [Str(s)];
    ShowFromEmitsRuns(st, [], [Glyphs(s)], tol);
    assert [] + s == s;
    assert RunsFrom([], [Glyphs(s)]) == [s];
    assert EmitAll(st, [s], tol) == EmitAll(Emit(st, s, tol), [], tol);
  }

  lemma RunTJ(st: State, parts: seq<Part>, tol: real)
    ensures RunCommand(st, TJ(parts), tol) == EmitAll(st, Runs(PartElems(parts)), tol)
  {
    assert ArgOperands([ArrayArg(parts)]) == [Arr(PartElems(parts))];
    ShowFromEmitsRuns(st, [], PartElems(parts), tol);
  }

  /** BT, ET, q, Q and the path and clipping operators leave the state alone. */
  lemma RunIgnored(st: State, c: Command, tol: real)
    requires Classify(c.name) == BeginText || Classify(c.name) == EndText || Classify(c.name) == Other
    ensures RunCommand(st, c, tol) == st
  {
  }

  /** The commands `cs`, none of which shows text, followed by `rest`. */
  function Ignoring(cs: seq<Command>, rest: Script): Script
  {
    if cs == [] then rest else Then(cs[0], Ignoring(cs[1..], rest))
  }

  /** An operator the text-position state ignores. */
  predicate Inert(c: Command)
  {
    Classify(c.name) == BeginText || Classify(c.name) == EndText || Classify(c.name) == Other
  }

  lemma {:induction false} SkipAll(st: State, cs: seq<Command>, rest: Script, tol: real)
    requires forall k :: 0 <= k < |cs| ==> Inert(cs[k])
    ensures RunScript(st, Ignoring(cs, rest), tol) == RunScript(st, rest, tol)
    decreases |cs|
  {
    if cs != [] {
      RunIgnored(st, cs[0], tol);
      SkipAll(st, cs[1..], rest, tol);
    }
  }

  lemma {:induction false} IgnoringOk(cs: seq<Command>, rest: Script)
    requires forall k :: 0 <= k < |cs| ==> CommandOk(cs[k]) && cs[k].after != []
    requires ScriptOk(rest)
    ensures ScriptOk(Ignoring(cs, rest))
    decreases |cs|
  {
    if cs != [] {
      IgnoringOk(cs[1..], rest);
    }
  }

  lemma JoinFour(a: seq<Bytes>, b: seq<Bytes>, c: seq<Bytes>, d: seq<Bytes>)
    ensures JoinLines([a, b, c, d]) == a + [[]] + (b + [[]] + (c + [[]] + d))
  {
    assert JoinLines([c, d]) == c + [[]] + d by {
      assert [c, d][1..] == [d];
    }
    assert JoinLines([b, c, d]) == b + [[]] + JoinLines([c, d]) by {
      assert [b, c, d][1..] == [c, d];
    }
    assert [a, b, c, d][1..] == [b, c, d];
  }

  /** A written stream whose run leaves the groups joined by markers is
      grouped into exactly those groups. */
  lemma WrittenGroups(s: Script, tol: real, groups: seq<seq<Bytes>>)
    requires ScriptOk(s) && WellFormed(groups)
    requires RunScript(Initial, s, tol).items == JoinLines(groups)
    ensures GroupIntoLines(Extract(Written(s), tol)) == groups
  {
    WrittenExtract(s, tol);
    GroupJoinRoundTrip(groups);
  }

  /** The runs each kind of command contributes, whatever follows it. */
  lemma RunsOfTj(s: Bytes, rest: Script)
    requires s != []
    ensures ScriptRuns(Then(Tj(s), rest)) == [s] + ScriptRuns(rest)
  {
    assert ArgOperands([StringArg(s)]) == [Str(s)];
    assert [] + s == s;
    assert RunsFrom([], [Glyphs(s)]) == [s];
  }

  lemma RunsOfTJ(parts: seq<Part>, rest: Script)
    ensures ScriptRuns(Then(TJ(parts), rest)) == Runs(PartElems(parts)) + ScriptRuns(rest)
  {
  }

  lemma RunsOfIgnored(c: Command, rest: Script)
    requires Classify(c.name) != ShowString && Classify(c.name) != ShowArray
    ensures ScriptRuns(Then(c, rest)) == ScriptRuns(rest)
  {
  }

  lemma RunsOfTD(tx: Decimal, ty: Decimal, rest: Script)
    ensures ScriptRuns(Then(TD(tx, ty), rest)) == ScriptRuns(rest)
  {
  }

  lemma RunsOfTm(ds: seq<Decimal>, rest: Script)
    requires |ds| == 6
    ensures ScriptRuns(Then(Tm(ds), rest)) == ScriptRuns(rest)
  {
  }

  lemma RunsOfBT(rest: Script)
    ensures ScriptRuns(Then(Bare(BeginName), rest)) == ScriptRuns(rest)
  {
  }

  lemma RunsOfET()
    ensures ScriptRuns(EndStream) == []
  {
  }

  /** A TD followed by a Tj contributes the Tj's string. */
  lemma RunsOfMoveShow(tx: Decimal, ty: Decimal, s: Bytes, rest: Script)
    requires s != []
    ensures ScriptRuns(Then(TD(tx, ty), Then(Tj(s), rest))) == [s] + ScriptRuns(rest)
  {
    RunsOfTD(tx, ty, Then(Tj(s), rest));
    RunsOfTj(s, rest);
  }

  // ---------------------------------------------------------------------
  // A single Tj

  const TjStream := Then(Bare(BeginName), Then(Tj("Hello World"), EndStream))

  lemma TjStreamOk()
    ensures ScriptOk(TjStream)
  {
  }

  lemma TjStreamRuns()
    ensures ScriptRuns(TjStream) == ["Hello World"]
  {
    RunsOfIgnored(Final(Bare(EndName)), End);
    RunsOfTj("Hello World", EndStream);
    RunsOfIgnored(Bare(BeginName), Then(Tj("Hello World"), EndStream));
  }

  /** `(Hello World)Tj` yields the one item "Hello World", whatever the tolerance. */
  lemma SingleTj(tol: real)
    ensures NonEmpty(Extract(Written(TjStream), tol)) == ["Hello World"]
  {
    TjStreamOk();
    TjStreamRuns();
    WrittenText(TjStream, tol, ["Hello World"]);
  }

  // ---------------------------------------------------------------------
  // Kerning inside a TJ array

  /** Two stretches of small kerning around one large kerning give two runs. */
  lemma SplitInTwo(xs: seq<Elem>, n: real, ys: seq<Elem>)
    requires SmallKerning(xs) && SmallKerning(ys) && EndsRun(n)
    ensures Runs(xs + [Kern(n)] + ys) == Flush(Text(xs)) + Flush(Text(ys))
  {
    LargeKerningSplits([], xs, n, ys);
    SmallKerningJoins([], xs);
    SmallKerningJoins([], ys);
    assert [] + Text(xs) == Text(xs) && [] + Text(ys) == Text(ys);
  }

  const KernedParts := [StringPart("8"), KernPart(Whole(0, 1)), StringPart("8"), KernPart(Minus(Decimal(false, 4704, 4, 6, 1))),
                        StringPart("2"), KernPart(Whole(0, 1)), StringPart("3")]

  const KernedStream := Then(Bare(BeginName), Then(TJ(KernedParts), EndStream))

  lemma KernedStreamOk()
    ensures ScriptOk(KernedStream)
  {
  }

  lemma KernedElems()
    ensures PartElems(KernedParts) == [Glyphs("8"), Kern(0.0), Glyphs("8")] + [Kern(-4704.6)] + [Glyphs("2"), Kern(0.0), Glyphs("3")]
  {
  }

  lemma KernedRuns()
    ensures Runs(PartElems(KernedParts)) == ["88", "23"]
  {
    var xs, ys := [Glyphs("8"), Kern(0.0), Glyphs("8")], [Glyphs("2"), Kern(0.0), Glyphs("3")];
    KernedElems();
    SplitInTwo(xs, -4704.6, ys);
    assert Text(xs) == "88" && Text(ys) == "23";
  }

  lemma KernedStreamRuns()
    ensures ScriptRuns(KernedStream) == ["88", "23"]
  {
    TextNames();
    KernedRuns();
    RunsOfIgnored(Final(Bare(EndName)), End);
    RunsOfTJ(KernedParts, EndStream);
    RunsOfIgnored(Bare(BeginName), Then(TJ(KernedParts), EndStream));
  }

  /** `[(8)0(8)-4704.6(2)0(3)]TJ`: zero kerning joins, -4704.6 splits. */
  lemma KerningSplitsRuns(tol: real)
    ensures NonEmpty(Extract(Written(KernedStream), tol)) == ["88", "23"]
  {
    KernedStreamOk();
    KernedStreamRuns();
    WrittenText(KernedStream, tol, ["88", "23"]);
  }

  /** `[(H)-50(e)-30(l)(l)(o)]TJ`: kerning within the threshold joins. */
  const HelloParts := [StringPart("H"), KernPart(Minus(Whole(50, 2))), StringPart("e"), KernPart(Minus(Whole(30, 2))),
                       StringPart("l"), StringPart("l"), StringPart("o")]

  const HelloStream := Then(Bare(BeginName), Then(TJ(HelloParts), EndStream))

  lemma HelloStreamOk()
    ensures ScriptOk(HelloStream)
  {
  }

  lemma HelloElems()
    ensures PartElems(HelloParts) == [Glyphs("H"), Kern(-50.0), Glyphs("e"), Kern(-30.0), Glyphs("l"), Glyphs("l"), Glyphs("o")]
  {
  }

  lemma HelloRuns()
    ensures Runs(PartElems(HelloParts)) == ["Hello"]
  {
    var elems := [Glyphs("H"), Kern(-50.0), Glyphs("e"), Kern(-30.0), Glyphs("l"), Glyphs("l"), Glyphs("o")];
    HelloElems();
    SmallKerningJoins([], elems);
    assert Text(elems) == "Hello";
    assert [] + Text(elems) == Text(elems);
  }

  lemma HelloStreamRuns()
    ensures ScriptRuns(HelloStream) == ["Hello"]
  {
    TextNames();
    HelloRuns();
    RunsOfIgnored(Final(Bare(EndName)), End);
    RunsOfTJ(HelloParts, EndStream);
    RunsOfIgnored(Bare(BeginName), Then(TJ(HelloParts), EndStream));
  }

  lemma SmallKerningJoinsRuns(tol: real)
    ensures NonEmpty(Extract(Written(HelloStream), tol)) == ["Hello"]
  {
    HelloStreamOk();
    HelloStreamRuns();
    WrittenText(HelloStream, tol, ["Hello"]);
  }

  // ---------------------------------------------------------------------
  // Escaped parentheses

  /** A parenthesised plain string is written with each of its two
      parentheses escaped by a backslash: "(moving)" as `(\\(moving\\))`. */
  lemma ParenthesizedSpelling(t: Bytes)
    requires forall k :: 0 <= k < |t| ==> t[k] != '(' && t[k] != ')' && t[k] != '\\'
    ensures Spell(Quoted(['('] + t + [')'])) == ['(', '\\', '('] + t + ['\\', ')', ')']
  {
    var open, close: Bytes := ['('], [')'];
    assert Escape(open) == ['\\', '('] by {
      assert open[1..] == [];
    }
    assert Escape(close) == ['\\', ')'] by {
      assert close[1..] == [];
    }
    EscapeAppend(open + t, close);
    EscapeAppend(open, t);
    EscapePlain(t);
    assert Escape(open + t + close) == ['\\', '('] + t + ['\\', ')'];
  }

  const MovingStream := Then(Bare(BeginName), Then(Tj("(moving)"), EndStream))

  lemma MovingStreamOk()
    ensures ScriptOk(MovingStream)
  {
  }

  lemma MovingStreamRuns()
    ensures ScriptRuns(MovingStream) == ["(moving)"]
  {
    TextNames();
    RunsOfIgnored(Final(Bare(EndName)), End);
    RunsOfTj("(moving)", EndStream);
    RunsOfIgnored(Bare(BeginName), Then(Tj("(moving)"), EndStream));
  }

  /** The escaped parentheses are read back as plain parentheses. */
  lemma EscapedParens(tol: real)
    ensures NonEmpty(Extract(Written(MovingStream), tol)) == ["(moving)"]
  {
    MovingStreamOk();
    MovingStreamRuns();
    WrittenText(MovingStream, tol, ["(moving)"]);
  }

  // ---------------------------------------------------------------------
  // Text placed by Tm, one run at a time

  /** `1 0 0 1 e f Tm`: an upright matrix, whose line coordinate is f. */
  function Upright(e: Decimal, f: Decimal): seq<Decimal>
  {
    [Whole(1, 1), Whole(0, 1), Whole(0, 1), Whole(1, 1), e, f]
  }

  const Scale := Decimal(false, 10, 2, 2, 1)

  /** `0 10.2 -10.2 0 e f Tm`: a matrix rotated a quarter turn, whose line
      coordinate is -10.2 e. */
  function Rotated(e: Decimal, f: Decimal): seq<Decimal>
  {
    [Whole(0, 1), Scale, Minus(Scale), Whole(0, 1), e, f]
  }

  lemma UprightLine(e: Decimal, f: Decimal)
    ensures LineCoordinate(MatrixOf(Upright(e, f))) == DecimalValue(f)
  {
  }

  lemma RotatedLine(e: Decimal, f: Decimal)
    ensures LineCoordinate(MatrixOf(Rotated(e, f))) == -10.2 * DecimalValue(e)
    ensures var m := MatrixOf(Rotated(e, f)); m.a * m.d - m.b * m.c == 104.04
  {
  }

  /** The state after a run is shown on the matrix `m`. */
  function ShownAt(m: Matrix, items: seq<Bytes>): State
  {
    State(m, Some(LineCoordinate(m)), items)
  }

  /** A Tm and a Tj: the run is emitted on the new matrix. */
  lemma PlaceRun(st: State, ds: seq<Decimal>, s: Bytes, rest: Script, tol: real)
    requires |ds| == 6 && s != []
    ensures RunScript(st, Then(Tm(ds), Then(Tj(s), rest)), tol) == RunScript(Emit(st.(m := MatrixOf(ds)), s, tol), rest, tol)
  {
    TextNames();
    RunTm(st, ds, tol);
    RunTj(st.(m := MatrixOf(ds)), s, tol);
  }

  /** A Tm and a Tj as the first text of the stream. */
  lemma PlaceFirst(st: State, ds: seq<Decimal>, s: Bytes, rest: Script, tol: real)
    requires |ds| == 6 && s != [] && st.last.None? && st.items == []
    ensures RunScript(st, Then(Tm(ds), Then(Tj(s), rest)), tol) == RunScript(ShownAt(MatrixOf(ds), [s]), rest, tol)
  {
    PlaceRun(st, ds, s, rest, tol);
    assert st.items + [] + [s] == [s];
  }

  /** A Tm and a Tj within the tolerance of the last run: no marker. */
  lemma PlaceSame(st: State, ds: seq<Decimal>, s: Bytes, rest: Script, tol: real)
    requires |ds| == 6 && s != [] && st.last.Some?
    requires AbsReal(LineCoordinate(MatrixOf(ds)) - st.last.value) <= tol
    ensures RunScript(st, Then(Tm(ds), Then(Tj(s), rest)), tol) == RunScript(ShownAt(MatrixOf(ds), st.items + [s]), rest, tol)
  {
    PlaceRun(st, ds, s, rest, tol);
    assert !BreaksLine(st.(m := MatrixOf(ds)), tol);
    assert st.items + [] + [s] == st.items + [s];
  }

  /** A Tm and a Tj beyond the tolerance of the last run: a marker first. */
  lemma PlaceBreak(st: State, ds: seq<Decimal>, s: Bytes, rest: Script, tol: real)
    requires |ds| == 6 && s != [] && st.last.Some?
    requires AbsReal(LineCoordinate(MatrixOf(ds)) - st.last.value) > tol
    ensures RunScript(st, Then(Tm(ds), Then(Tj(s), rest)), tol) == RunScript(ShownAt(MatrixOf(ds), st.items + [[], s]), rest, tol)
  {
    PlaceRun(st, ds, s, rest, tol);
    assert BreaksLine(st.(m := MatrixOf(ds)), tol);
    assert st.items + [[]] + [s] == st.items + [[], s];
  }

  /** A Tj as the first text of the stream, on the current matrix. */
  lemma ShowFirst(st: State, s: Bytes, rest: Script, tol: real)
    requires s != [] && st.last.None? && st.items == []
    ensures RunScript(st, Then(Tj(s), rest), tol) == RunScript(ShownAt(st.m, [s]), rest, tol)
  {
    TextNames();
    RunTj(st, s, tol);
    assert st.items + [] + [s] == [s];
  }

  /** A TD and a Tj: the run is emitted on the moved matrix. */
  lemma MoveRun(st: State, tx: Decimal, ty: Decimal, s: Bytes, rest: Script, tol: real)
    requires s != []
    ensures RunScript(st, Then(TD(tx, ty), Then(Tj(s), rest)), tol)
         == RunScript(Emit(st.(m := Translate(st.m, DecimalValue(tx), DecimalValue(ty))), s, tol), rest, tol)
  {
    TextNames();
    RunTD(st, tx, ty, tol);
    RunTj(st.(m := Translate(st.m, DecimalValue(tx), DecimalValue(ty))), s, tol);
  }

  /** A TD and a Tj that move beyond the tolerance: a marker first. */
  lemma MoveBreak(st: State, tx: Decimal, ty: Decimal, s: Bytes, rest: Script, tol: real)
    requires s != [] && st.last.Some?
    requires AbsReal(LineCoordinate(Translate(st.m, DecimalValue(tx), DecimalValue(ty))) - st.last.value) > tol
    ensures RunScript(st, Then(TD(tx, ty), Then(Tj(s), rest)), tol)
         == RunScript(ShownAt(Translate(st.m, DecimalValue(tx), DecimalValue(ty)), st.items + [[], s]), rest, tol)
  {
    MoveRun(st, tx, ty, s, rest, tol);
    assert BreaksLine(st.(m := Translate(st.m, DecimalValue(tx), DecimalValue(ty))), tol);
    assert st.items + [[]] + [s] == st.items + [[], s];
  }

  lemma SkipBT(st: State, rest: Script, tol: real)
    ensures RunScript(st, Then(Bare(BeginName), rest), tol) == RunScript(st, rest, tol)
  {
  }

  lemma StopET(st: State, tol: real)
    ensures RunScript(st, EndStream, tol) == st
  {
  }

  // ---------------------------------------------------------------------
  // The runs of the Tm streams

  const MunicipalCourt: Bytes := "MUNICIPAL COURT STATISTICS"
  const July2023: Bytes := "JULY 2023 - JUNE 2024"
  const Hudson: Bytes := "HUDSON"
  const UnionCit: Bytes := "Union Cit"
  const CitY: Bytes := "y"
  const NextLine: Bytes := "Next Line"

  // ---------------------------------------------------------------------
  // Rotated text: runs with the same e share a line

  const RotatedE1 := Decimal(false, 34, 2, 68, 2)
  const RotatedE2 := Decimal(false, 49, 2, 92, 2)
  const RotatedE3 := Decimal(false, 65, 2, 16, 2)
  const RotatedE4 := Decimal(false, 80, 2, 40, 2)
  const RotatedF1 := Decimal(false, 317, 3, 52, 2)

  const Rotated6 := Then(Tm(Rotated(RotatedE4, RotatedF1)), Then(Tj(NextLine), EndStream))
  const Rotated5 := Then(Tm(Rotated(RotatedE3, Decimal(false, 400, 3, 0, 2))), Then(Tj(CitY), Rotated6))
  const Rotated4 := Then(Tm(Rotated(RotatedE3, RotatedF1)), Then(Tj(UnionCit), Rotated5))
  const Rotated3 := Then(Tm(Rotated(RotatedE2, RotatedF1)), Then(Tj(Hudson), Rotated4))
  const Rotated2 := Then(Tm(Rotated(RotatedE1, Decimal(false, 302, 3, 58, 2))), Then(Tj(July2023), Rotated3))
  const Rotated1 := Then(Tm(Rotated(RotatedE1, RotatedF1)), Then(Tj(MunicipalCourt), Rotated2))
  const RotatedStream := Then(Bare(BeginName), Rotated1)

  lemma RotatedLines()
    ensures DecimalValue(RotatedE1) == 34.68 && DecimalValue(RotatedE2) == 49.92
    ensures DecimalValue(RotatedE3) == 65.16 && DecimalValue(RotatedE4) == 80.40
  {
  }

  lemma RotatedItems(tol: real)
    requires 0.0 <= tol < 155.448
    ensures RunScript(Initial, RotatedStream, tol)
         == ShownAt(MatrixOf(Rotated(RotatedE4, RotatedF1)), [MunicipalCourt] + [July2023] + [[], Hudson] + [[], UnionCit] + [CitY] + [[], NextLine])
  {
    RotatedLines();
    var m1 := MatrixOf(Rotated(RotatedE1, RotatedF1));
    var m2 := MatrixOf(Rotated(RotatedE1, Decimal(false, 302, 3, 58, 2)));
    var m3 := MatrixOf(Rotated(RotatedE2, RotatedF1));
    var m4 := MatrixOf(Rotated(RotatedE3, RotatedF1));
    var m5 := MatrixOf(Rotated(RotatedE3, Decimal(false, 400, 3, 0, 2)));
    var m6 := MatrixOf(Rotated(RotatedE4, RotatedF1));
    RotatedLine(RotatedE1, RotatedF1);
    RotatedLine(RotatedE1, Decimal(false, 302, 3, 58, 2));
    RotatedLine(RotatedE2, RotatedF1);
    RotatedLine(RotatedE3, RotatedF1);
    RotatedLine(RotatedE3, Decimal(false, 400, 3, 0, 2));
    RotatedLine(RotatedE4, RotatedF1);
    var i1: seq<Bytes> := [MunicipalCourt];
    var i2 := i1 + [July2023];
    var i3 := i2 + [[], Hudson];
    var i4 := i3 + [[], UnionCit];
    var i5 := i4 + [CitY];
    var i6 := i5 + [[], NextLine];
    SkipBT(Initial, Rotated1, tol);
    PlaceFirst(Initial, Rotated(RotatedE1, RotatedF1), MunicipalCourt, Rotated2, tol);
    PlaceSame(ShownAt(m1, i1), Rotated(RotatedE1, Decimal(false, 302, 3, 58, 2)), July2023, Rotated3, tol);
    PlaceBreak(ShownAt(m2, i2), Rotated(RotatedE2, RotatedF1), Hudson, Rotated4, tol);
    PlaceBreak(ShownAt(m3, i3), Rotated(RotatedE3, RotatedF1), UnionCit, Rotated5, tol);
    PlaceSame(ShownAt(m4, i4), Rotated(RotatedE3, Decimal(false, 400, 3, 0, 2)), CitY, Rotated6, tol);
    PlaceBreak(ShownAt(m5, i5), Rotated(RotatedE4, RotatedF1), NextLine, EndStream, tol);
    StopET(ShownAt(m6, i6), tol);
  }

  lemma RotatedValid(e: Decimal, f: Decimal)
    requires ValidDecimal(e) && ValidDecimal(f)
    ensures ValidMatrix(Rotated(e, f))
  {
  }

  /** The items the rotated stream leaves, as its four lines joined by markers. */
  lemma RotatedJoin(a: Bytes, b: Bytes, c: Bytes, d: Bytes, e: Bytes, f: Bytes)
    requires a != [] && b != [] && c != [] && d != [] && e != [] && f != []
    ensures [a] + [b] + [[], c] + [[], d] + [e] + [[], f] == JoinLines([[a, b], [c], [d, e], [f]])
    ensures WellFormed([[a, b], [c], [d, e], [f]])
  {
    JoinFour([a, b], [c], [d, e], [f]);
  }

  lemma RotatedStreamOk()
    ensures ScriptOk(RotatedStream)
  {
    var f2, f5 := Decimal(false, 302, 3, 58, 2), Decimal(false, 400, 3, 0, 2);
    RotatedValid(RotatedE4, RotatedF1);
    RotatedValid(RotatedE3, f5);
    RotatedValid(RotatedE3, RotatedF1);
    RotatedValid(RotatedE2, RotatedF1);
    RotatedValid(RotatedE1, f2);
    RotatedValid(RotatedE1, RotatedF1);
    EndOk();
    PlacementOk(Rotated(RotatedE4, RotatedF1), NextLine, EndStream);
    PlacementOk(Rotated(RotatedE3, f5), CitY, Rotated6);
    PlacementOk(Rotated(RotatedE3, RotatedF1), UnionCit, Rotated5);
    PlacementOk(Rotated(RotatedE2, RotatedF1), Hudson, Rotated4);
    PlacementOk(Rotated(RotatedE1, f2), July2023, Rotated3);
    PlacementOk(Rotated(RotatedE1, RotatedF1), MunicipalCourt, Rotated2);
    BeginOk(Rotated1);
  }

  lemma TmRunsNonEmpty()
    ensures MunicipalCourt != [] && July2023 != [] && Hudson != [] && UnionCit != [] && CitY != [] && NextLine != []
  {
  }

  lemma RotatedJoined(tol: real)
    requires 0.0 <= tol < 155.448
    ensures RunScript(Initial, RotatedStream, tol).items == JoinLines([[MunicipalCourt, July2023], [Hudson], [UnionCit, CitY], [NextLine]])
    ensures WellFormed([[MunicipalCourt, July2023], [Hudson], [UnionCit, CitY], [NextLine]])
  {
    RotatedItems(tol);
    TmRunsNonEmpty();
    RotatedJoin(MunicipalCourt, July2023, Hudson, UnionCit, CitY, NextLine);
  }

  /** "Union Cit" and "y" share a line, and each change of e starts a new one. */
  lemma RotatedGroups(tol: real)
    requires 0.0 <= tol < 155.448
    ensures GroupIntoLines(Extract(Written(RotatedStream), tol)) == [[MunicipalCourt, July2023], [Hudson], [UnionCit, CitY], [NextLine]]
  {
    RotatedJoined(tol);
    RotatedStreamOk();
    WrittenGroups(RotatedStream, tol, [[MunicipalCourt, July2023], [Hudson], [UnionCit, CitY], [NextLine]]);
  }

  // ---------------------------------------------------------------------
  // Upright text: runs with the same f share a line

  const Upright6 := Then(Tm(Upright(Whole(72, 2), Whole(640, 3))), Then(Tj(NextLine), EndStream))
  const Upright5 := Then(Tm(Upright(Whole(140, 3), Whole(655, 3))), Then(Tj(CitY), Upright6))
  const Upright4 := Then(Tm(Upright(Whole(72, 2), Whole(655, 3))), Then(Tj(UnionCit), Upright5))
  const Upright3 := Then(Tm(Upright(Whole(72, 2), Whole(670, 3))), Then(Tj(Hudson), Upright4))
  const Upright2 := Then(Tm(Upright(Whole(72, 2), Whole(685, 3))), Then(Tj(July2023), Upright3))
  const Upright1 := Then(Tm(Upright(Whole(72, 2), Whole(700, 3))), Then(Tj(MunicipalCourt), Upright2))
  const UprightStream := Then(Bare(BeginName), Upright1)

  /** The first three upright lines, each a new one. */
  lemma UprightTop(tol: real)
    requires 0.0 <= tol < 15.0
    ensures RunScript(Initial, UprightStream, tol)
         == RunScript(ShownAt(MatrixOf(Upright(Whole(72, 2), Whole(670, 3))), [MunicipalCourt] + [[], July2023] + [[], Hudson]), Upright4, tol)
  {
    var m1 := MatrixOf(Upright(Whole(72, 2), Whole(700, 3)));
    var m2 := MatrixOf(Upright(Whole(72, 2), Whole(685, 3)));
    UprightLine(Whole(72, 2), Whole(700, 3));
    UprightLine(Whole(72, 2), Whole(685, 3));
    UprightLine(Whole(72, 2), Whole(670, 3));
    var i1: seq<Bytes> := [MunicipalCourt];
    var i2 := i1 + [[], July2023];
    SkipBT(Initial, Upright1, tol);
    PlaceFirst(Initial, Upright(Whole(72, 2), Whole(700, 3)), MunicipalCourt, Upright2, tol);
    PlaceBreak(ShownAt(m1, i1), Upright(Whole(72, 2), Whole(685, 3)), July2023, Upright3, tol);
    PlaceBreak(ShownAt(m2, i2), Upright(Whole(72, 2), Whole(670, 3)), Hudson, Upright4, tol);
  }

  /** The last three Tm commands: "y" joins "Union Cit" at the same f. */
  lemma UprightBottom(items: seq<Bytes>, tol: real)
    requires 0.0 <= tol < 15.0
    ensures RunScript(ShownAt(MatrixOf(Upright(Whole(72, 2), Whole(670, 3))), items), Upright4, tol)
         == ShownAt(MatrixOf(Upright(Whole(72, 2), Whole(640, 3))), items + [[], UnionCit] + [CitY] + [[], NextLine])
  {
    var m3 := MatrixOf(Upright(Whole(72, 2), Whole(670, 3)));
    var m4 := MatrixOf(Upright(Whole(72, 2), Whole(655, 3)));
    var m5 := MatrixOf(Upright(Whole(140, 3), Whole(655, 3)));
    var m6 := MatrixOf(Upright(Whole(72, 2), Whole(640, 3)));
    UprightLine(Whole(72, 2), Whole(670, 3));
    UprightLine(Whole(72, 2), Whole(655, 3));
    UprightLine(Whole(140, 3), Whole(655, 3));
    UprightLine(Whole(72, 2), Whole(640, 3));
    var i4 := items + [[], UnionCit];
    var i5 := i4 + [CitY];
    var i6 := i5 + [[], NextLine];
    PlaceBreak(ShownAt(m3, items), Upright(Whole(72, 2), Whole(655, 3)), UnionCit, Upright5, tol);
    PlaceSame(ShownAt(m4, i4), Upright(Whole(140, 3), Whole(655, 3)), CitY, Upright6, tol);
    PlaceBreak(ShownAt(m5, i5), Upright(Whole(72, 2), Whole(640, 3)), NextLine, EndStream, tol);
    StopET(ShownAt(m6, i6), tol);
  }

  lemma UprightItems(tol: real)
    requires 0.0 <= tol < 15.0
    ensures RunScript(Initial, UprightStream, tol)
         == ShownAt(MatrixOf(Upright(Whole(72, 2), Whole(640, 3))), [MunicipalCourt] + [[], July2023] + [[], Hudson] + [[], UnionCit] + [CitY] + [[], NextLine])
  {
    UprightTop(tol);
    UprightBottom([MunicipalCourt] + [[], July2023] + [[], Hudson], tol);
  }

  lemma UprightValid(e: Decimal, f: Decimal)
    requires ValidDecimal(e) && ValidDecimal(f)
    ensures ValidMatrix(Upright(e, f))
  {
  }

  lemma UprightStreamOk()
    ensures ScriptOk(UprightStream)
  {
    UprightValid(Whole(72, 2), Whole(640, 3));
    UprightValid(Whole(140, 3), Whole(655, 3));
    UprightValid(Whole(72, 2), Whole(655, 3));
    UprightValid(Whole(72, 2), Whole(670, 3));
    UprightValid(Whole(72, 2), Whole(685, 3));
    UprightValid(Whole(72, 2), Whole(700, 3));
    EndOk();
    PlacementOk(Upright(Whole(72, 2), Whole(640, 3)), NextLine, EndStream);
    PlacementOk(Upright(Whole(140, 3), Whole(655, 3)), CitY, Upright6);
    PlacementOk(Upright(Whole(72, 2), Whole(655, 3)), UnionCit, Upright5);
    PlacementOk(Upright(Whole(72, 2), Whole(670, 3)), Hudson, Upright4);
    PlacementOk(Upright(Whole(72, 2), Whole(685, 3)), July2023, Upright3);
    PlacementOk(Upright(Whole(72, 2), Whole(700, 3)), MunicipalCourt, Upright2);
    BeginOk(Upright1);
  }

  /** The items the upright stream leaves, as its five lines joined by markers. */
  lemma UprightJoin(a: Bytes, b: Bytes, c: Bytes, d: Bytes, e: Bytes, f: Bytes)
    requires a != [] && b != [] && c != [] && d != [] && e != [] && f != []
    ensures [a] + [[], b] + [[], c] + [[], d] + [e] + [[], f] == JoinLines([[a], [b], [c], [d, e], [f]])
    ensures WellFormed([[a], [b], [c], [d, e], [f]])
    ensures Flatten([[a], [b], [c], [d, e], [f]]) == [a, b, c, d, e, f]
  {
    var gs := [[a], [b], [c], [d, e], [f]];
    assert gs[1..] == [[b], [c], [d, e], [f]];
    JoinFour([b], [c], [d, e], [f]);
    assert Flatten(gs) == [a] + Flatten(gs[1..]);
    assert Flatten(gs[1..]) == [b] + Flatten(gs[2..]);
    assert Flatten(gs[2..]) == [c] + Flatten(gs[3..]);
    assert Flatten(gs[3..]) == [d, e] + Flatten(gs[4..]);
    assert Flatten(gs[4..]) == [f] + Flatten(gs[5..]);
  }

  lemma UprightJoined(tol: real)
    requires 0.0 <= tol < 15.0
    ensures RunScript(Initial, UprightStream, tol).items == JoinLines([[MunicipalCourt], [July2023], [Hudson], [UnionCit, CitY], [NextLine]])
    ensures WellFormed([[MunicipalCourt], [July2023], [Hudson], [UnionCit, CitY], [NextLine]])
    ensures Flatten([[MunicipalCourt], [July2023], [Hudson], [UnionCit, CitY], [NextLine]]) == [MunicipalCourt, July2023, Hudson, UnionCit, CitY, NextLine]
  {
    UprightItems(tol);
    TmRunsNonEmpty();
    UprightJoin(MunicipalCourt, July2023, Hudson, UnionCit, CitY, NextLine);
  }

  /** Two Tm operations on the same line, "Union Cit" then "y", leave no marker
      between them; every other Tm moves 15 units and starts a new line. */
  lemma TmSameLine(tol: real)
    requires 0.0 <= tol < 15.0
    ensures NonEmpty(Extract(Written(UprightStream), tol)) == [MunicipalCourt, July2023, Hudson, UnionCit, CitY, NextLine]
    ensures GroupIntoLines(Extract(Written(UprightStream), tol)) == [[MunicipalCourt], [July2023], [Hudson], [UnionCit, CitY], [NextLine]]
  {
    var groups := [[MunicipalCourt], [July2023], [Hudson], [UnionCit, CitY], [NextLine]];
    UprightJoined(tol);
    UprightStreamOk();
    WrittenExtract(UprightStream, tol);
    GroupJoinRoundTrip(groups);
    JoinKeepsItems(groups);
  }

  // ---------------------------------------------------------------------
  // A TD between two lines

  const Line1: Bytes := "Line1"
  const Line2: Bytes := "Line2"

  const Down := Minus(Whole(12, 2))
  const MovedRest := Then(TD(Whole(0, 1), Down), Then(Tj(Line2), EndStream))
  const MovedStream := Then(Bare(BeginName), Then(Tj(Line1), MovedRest))

  lemma MovedStreamOk()
    ensures ScriptOk(MovedStream)
  {
    // The calls below only keep this proof cheap; Dafny can find it unaided.
    EndOk();
    ShowOk(Line2, EndStream);
    MoveOk(Whole(0, 1), Down, Then(Tj(Line2), EndStream));
    ShowOk(Line1, MovedRest);
    BeginOk(Then(Tj(Line1), MovedRest));
  }

  lemma MovedLines()
    ensures DecimalValue(Whole(0, 1)) == 0.0 && DecimalValue(Down) == -12.0
  {
  }

  /** A TD by (tx, ty) that leaves the line, a Tj of `b` and ET. */
  lemma MovedSecond(st: State, b: Bytes, tx: Decimal, ty: Decimal, tol: real)
    requires b != [] && st.last.Some?
    requires AbsReal(LineCoordinate(Translate(st.m, DecimalValue(tx), DecimalValue(ty))) - st.last.value) > tol
    ensures RunScript(st, Then(TD(tx, ty), Then(Tj(b), EndStream)), tol).items == st.items + [[], b]
  {
    MoveBreak(st, tx, ty, b, EndStream, tol);
    StopET(ShownAt(Translate(st.m, DecimalValue(tx), DecimalValue(ty)), st.items + [[], b]), tol);
  }

  /** BT, a Tj of `a`, a TD by (tx, ty), a Tj of `b` and ET, from the initial
      state. */
  lemma MovedOf(a: Bytes, b: Bytes, tx: Decimal, ty: Decimal, tol: real)
    requires a != [] && b != [] && AbsReal(DecimalValue(ty)) > tol
    ensures RunScript(Initial, Then(Bare(BeginName), Then(Tj(a), Then(TD(tx, ty), Then(Tj(b), EndStream)))), tol).items == [a] + [[], b]
  {
    SkipBT(Initial, Then(Tj(a), Then(TD(tx, ty), Then(Tj(b), EndStream))), tol);
    ShowFirst(Initial, a, Then(TD(tx, ty), Then(Tj(b), EndStream)), tol);
    MovedSecond(ShownAt(Identity, [a]), b, tx, ty, tol);
  }

  lemma MovedItems(tol: real)
    requires 0.0 <= tol < 12.0
    ensures RunScript(Initial, MovedStream, tol).items == [Line1] + [[], Line2]
  {
    MovedLines();
    assert Line1 != [] && Line2 != [];
    MovedOf(Line1, Line2, Whole(0, 1), Down, tol);
  }

  /** Two runs separated by one marker. */
  lemma TwoLines(a: Bytes, b: Bytes)
    requires a != [] && b != [] && a != b
    ensures NonEmpty([a] + [[], b]) == [a, b]
    ensures var items := [a] + [[], b];
      exists j :: 0 < j < |items| && items[j] == [] && a in items[..j] && b !in items[..j]
    ensures GroupIntoLines([a] + [[], b]) == [[a], [b]]
  {
    var items := [a] + [[], b];
    assert items == [a, [], b];
    assert items[..1] == [a];
    assert JoinLines([[a], [b]]) == items;
    GroupJoinRoundTrip([[a], [b]]);
    JoinKeepsItems([[a], [b]]);
  }

  /** `0 -12 TD` moves the line by 12: both runs are kept, a marker separates
      them, and they are grouped as two lines. */
  lemma TDLineBreak(tol: real)
    requires 0.0 <= tol < 12.0
    ensures NonEmpty(Extract(Written(MovedStream), tol)) == [Line1, Line2]
    ensures var items := Extract(Written(MovedStream), tol);
      exists j :: 0 < j < |items| && items[j] == [] && Line1 in items[..j] && Line2 !in items[..j]
    ensures GroupIntoLines(Extract(Written(MovedStream), tol)) == [[Line1], [Line2]]
  {
    MovedStreamOk();
    MovedItems(tol);
    WrittenExtract(MovedStream, tol);
    assert Line1 != [] && Line2 != [] && Line1 != Line2;
    TwoLines(Line1, Line2);
  }

  // ---------------------------------------------------------------------
  // Tj and TJ mixed, with TD and Tm between them

  const Atlantic: Bytes := "ATLANTIC"
  const Absecon: Bytes := "ABSECON"
  const Courts: Bytes := "D.P. &"
  const OtherCourts: Bytes := "Other"
  const Criminal: Bytes := "Criminal"

  const Indent := Minus(Decimal(false, 1, 1, 4941, 4))
  const ColumnParts := [StringPart(Courts), KernPart(Minus(Decimal(false, 3012, 4, 9, 1))), StringPart(OtherCourts),
                        KernPart(Minus(Decimal(false, 2811, 4, 9, 1))), StringPart(Criminal)]
  const ColumnMatrix := [Whole(0, 1), Decimal(false, 8, 1, 52, 2), Minus(Decimal(false, 8, 1, 52, 2)), Whole(0, 1),
                         Decimal(false, 101, 3, 52, 2), Decimal(false, 285, 3, 96, 2)]

  const Mixed4 := Then(Tm(ColumnMatrix), Then(TJ(ColumnParts), EndStream))
  const Mixed3 := Then(TD(Decimal(true, 0, 0, 118, 4), Indent), Then(Tj(Absecon), Mixed4))
  const Mixed2 := Then(TD(Decimal(false, 3, 1, 706, 4), Indent), Then(Tj(Atlantic), Mixed3))
  const Mixed1 := Then(TD(Decimal(false, 2, 1, 1882, 4), Indent), Then(Tj(July2023), Mixed2))
  const MixedStream := Then(Bare(BeginName), Then(Tj(MunicipalCourt), Mixed1))

  lemma MixedStreamOk()
    ensures ScriptOk(MixedStream)
  {
    assert ValidMatrix(ColumnMatrix);
    EndOk();
    ArrayOk(ColumnParts, EndStream);
    MatrixOk(ColumnMatrix, Then(TJ(ColumnParts), EndStream));
    ShowOk(Absecon, Mixed4);
    MoveOk(Decimal(true, 0, 0, 118, 4), Indent, Then(Tj(Absecon), Mixed4));
    ShowOk(Atlantic, Mixed3);
    MoveOk(Decimal(false, 3, 1, 706, 4), Indent, Then(Tj(Atlantic), Mixed3));
    ShowOk(July2023, Mixed2);
    MoveOk(Decimal(false, 2, 1, 1882, 4), Indent, Then(Tj(July2023), Mixed2));
    ShowOk(MunicipalCourt, Mixed1);
    BeginOk(Then(Tj(MunicipalCourt), Mixed1));
  }

  /** Three strings split by two kernings beyond the threshold. */
  lemma ThreeRuns(a: Bytes, n: Decimal, b: Bytes, m: Decimal, c: Bytes)
    requires a != [] && b != [] && c != [] && EndsRun(DecimalValue(n)) && EndsRun(DecimalValue(m))
    ensures Runs(PartElems([StringPart(a), KernPart(n), StringPart(b), KernPart(m), StringPart(c)])) == [a, b, c]
  {
    var parts := [StringPart(a), KernPart(n), StringPart(b), KernPart(m), StringPart(c)];
    var tail := [Glyphs(b), Kern(DecimalValue(m)), Glyphs(c)];
    assert PartElems(parts[4..]) == [Glyphs(c)];
    assert PartElems(parts[2..]) == tail;
    assert PartElems(parts) == [Glyphs(a)] + [Kern(DecimalValue(n))] + tail;
    LargeKerningSplits([], [Glyphs(a)], DecimalValue(n), tail);
    assert tail == [Glyphs(b)] + [Kern(DecimalValue(m))] + [Glyphs(c)];
    LargeKerningSplits([], [Glyphs(b)], DecimalValue(m), [Glyphs(c)]);
    assert [] + a == a && [] + b == b && [] + c == c;
    assert RunsFrom([], [Glyphs(a)]) == [a];
    assert RunsFrom([], [Glyphs(b)]) == [b];
    assert RunsFrom([], [Glyphs(c)]) == [c];
  }

  /** The runs of the second half of the mixed stream, whatever its strings
      and numbers: every Tj contributes its string, TD and Tm nothing, and
      the TJ its runs. */
  /** A Tm, a TJ and ET: the runs of the array. */
  lemma ColumnRuns(ds: seq<Decimal>, parts: seq<Part>)
    requires |ds| == 6
    ensures ScriptRuns(Then(Tm(ds), Then(TJ(parts), EndStream))) == Runs(PartElems(parts))
  {
    RunsOfET();
    RunsOfTJ(parts, EndStream);
    RunsOfTm(ds, Then(TJ(parts), EndStream));
    assert Runs(PartElems(parts)) + [] == Runs(PartElems(parts));
  }

  lemma MixedTailOf(c: Bytes, d: Bytes, x2: Decimal, y2: Decimal, x3: Decimal, y3: Decimal, ds: seq<Decimal>, parts: seq<Part>)
    requires c != [] && d != [] && |ds| == 6
    ensures ScriptRuns(Then(TD(x2, y2), Then(Tj(c), Then(TD(x3, y3), Then(Tj(d), Then(Tm(ds), Then(TJ(parts), EndStream)))))))
         == [c, d] + Runs(PartElems(parts))
  {
    var s4 := Then(Tm(ds), Then(TJ(parts), EndStream));
    ColumnRuns(ds, parts);
    RunsOfMoveShow(x3, y3, d, s4);
    RunsOfMoveShow(x2, y2, c, Then(TD(x3, y3), Then(Tj(d), s4)));
    AppendAssociative([c], [d], Runs(PartElems(parts)));
  }

  /** The runs of the first half: BT, then a Tj, a TD and a Tj. */
  lemma MixedHeadOf(a: Bytes, b: Bytes, x1: Decimal, y1: Decimal, rest: Script)
    requires a != [] && b != []
    ensures ScriptRuns(Then(Bare(BeginName), Then(Tj(a), Then(TD(x1, y1), Then(Tj(b), rest))))) == [a, b] + ScriptRuns(rest)
  {
    RunsOfMoveShow(x1, y1, b, rest);
    RunsOfTj(a, Then(TD(x1, y1), Then(Tj(b), rest)));
    RunsOfBT(Then(Tj(a), Then(TD(x1, y1), Then(Tj(b), rest))));
  }

  lemma MixedRuns()
    ensures ScriptRuns(MixedStream) == [MunicipalCourt, July2023, Atlantic, Absecon, Courts, OtherCourts, Criminal]
  {
    TmRunsNonEmpty();
    assert Atlantic != [] && Absecon != [] && Courts != [] && OtherCourts != [] && Criminal != [];
    assert DecimalValue(Minus(Decimal(false, 3012, 4, 9, 1))) == -3012.9;
    assert DecimalValue(Minus(Decimal(false, 2811, 4, 9, 1))) == -2811.9;
    ThreeRuns(Courts, Minus(Decimal(false, 3012, 4, 9, 1)), OtherCourts, Minus(Decimal(false, 2811, 4, 9, 1)), Criminal);
    MixedTailOf(Atlantic, Absecon, Decimal(false, 3, 1, 706, 4), Indent, Decimal(true, 0, 0, 118, 4), Indent, ColumnMatrix, ColumnParts);
    MixedHeadOf(MunicipalCourt, July2023, Decimal(false, 2, 1, 1882, 4), Indent, Mixed2);
  }

  /** Each Tj gives its string and the TJ array splits at its two large
      kernings: seven runs in order, whatever the tolerance. */
  lemma MixedTjAndTJ(tol: real)
    ensures NonEmpty(Extract(Written(MixedStream), tol)) == [MunicipalCourt, July2023, Atlantic, Absecon, Courts, OtherCourts, Criminal]
  {
    MixedStreamOk();
    MixedRuns();
    WrittenText(MixedStream, tol, [MunicipalCourt, July2023, Atlantic, Absecon, Courts, OtherCourts, Criminal]);
  }

  // ---------------------------------------------------------------------
  // A run split across two BT..ET blocks, the second one clipped

  const July2021: Bytes := "JULY 2021 - JUNE 2022"
  const Atlanti: Bytes := "ATLANTI"
  const LetterC: Bytes := "C"
  const Brigantine: Bytes := "BRIGANTINE"

  const Step := Minus(Decimal(false, 1, 1, 2941, 4))
  const ClipPath := [Decimal(false, 49, 2, 8, 1), Decimal(false, 371, 3, 16, 2), Decimal(false, 11, 2, 52, 2), Decimal(false, 50, 2, 4, 1)]

  /** ET, q, `1 i`, a rectangle, `W n` and BT: the clipping set up between
      the two blocks. */
  const ClipCommands := [Bare(EndName), Bare("q"), Command([NumberArg(Whole(1, 1))], "i", "\n"),
                         Command([NumberArg(ClipPath[0]), NumberArg(ClipPath[1]), NumberArg(ClipPath[2]), NumberArg(ClipPath[3])], "re", "\n"),
                         Command([], "W", " "), Bare("n"), Bare(BeginName)]
  const RestoreCommands := [Bare(EndName), Bare("Q"), Bare(BeginName)]

  const Clipped6 := Then(Tm(Rotated(Decimal(false, 72, 2, 24, 2), Decimal(false, 364, 3, 8, 1))), Then(Tj(Brigantine), EndStream))
  const Clipped5 := Ignoring(RestoreCommands, Clipped6)
  const Clipped4 := Then(Tm(Rotated(Decimal(false, 59, 2, 4, 2), Decimal(false, 414, 3, 7839, 4))), Then(Tj(LetterC), Clipped5))
  const Clipped3 := Ignoring(ClipCommands, Clipped4)
  const Clipped2 := Then(TD(Decimal(false, 3, 1, 706, 4), Step), Then(Tj(Atlanti), Clipped3))
  const Clipped1 := Then(TD(Decimal(false, 2, 1, 1882, 4), Step), Then(Tj(July2021), Clipped2))
  const ClippedStream := Then(Bare(BeginName), Then(Tm(Rotated(Decimal(false, 32, 2, 64, 2), RotatedF1)), Then(Tj(MunicipalCourt), Clipped1)))

  lemma ClipNames()
    ensures Classify("q") == Other && Classify("Q") == Other && Classify("i") == Other
    ensures Classify("re") == Other && Classify("W") == Other && Classify("n") == Other
  {
  }

  lemma ClipNamesOk()
    ensures NameOk("q") && NameOk("Q") && NameOk("i") && NameOk("re") && NameOk("W") && NameOk("n")
  {
  }

  lemma ClipInert()
    ensures forall k :: 0 <= k < |ClipCommands| ==> Inert(ClipCommands[k])
    ensures forall k :: 0 <= k < |RestoreCommands| ==> Inert(RestoreCommands[k])
  {
  }

  lemma ClipWritable()
    ensures forall k :: 0 <= k < |ClipCommands| ==> CommandOk(ClipCommands[k]) && ClipCommands[k].after != []
    ensures forall k :: 0 <= k < |RestoreCommands| ==> CommandOk(RestoreCommands[k]) && RestoreCommands[k].after != []
  {
    // The calls below only keep this proof cheap; Dafny can find it unaided.
    TextNamesOk();
    ClipNamesOk();
  }

  lemma ClippedStreamOk()
    ensures ScriptOk(ClippedStream)
  {
    ClipWritable();
    assert ValidDecimal(Step);
    RotatedValid(Decimal(false, 72, 2, 24, 2), Decimal(false, 364, 3, 8, 1));
    RotatedValid(Decimal(false, 59, 2, 4, 2), Decimal(false, 414, 3, 7839, 4));
    RotatedValid(Decimal(false, 32, 2, 64, 2), RotatedF1);
    EndOk();
    PlacementOk(Rotated(Decimal(false, 72, 2, 24, 2), Decimal(false, 364, 3, 8, 1)), Brigantine, EndStream);
    IgnoringOk(RestoreCommands, Clipped6);
    PlacementOk(Rotated(Decimal(false, 59, 2, 4, 2), Decimal(false, 414, 3, 7839, 4)), LetterC, Clipped5);
    IgnoringOk(ClipCommands, Clipped4);
    ShowOk(Atlanti, Clipped3);
    MoveOk(Decimal(false, 3, 1, 706, 4), Step, Then(Tj(Atlanti), Clipped3));
    ShowOk(July2021, Clipped2);
    MoveOk(Decimal(false, 2, 1, 1882, 4), Step, Then(Tj(July2021), Clipped2));
    PlacementOk(Rotated(Decimal(false, 32, 2, 64, 2), RotatedF1), MunicipalCourt, Clipped1);
    BeginOk(Then(Tm(Rotated(Decimal(false, 32, 2, 64, 2), RotatedF1)), Then(Tj(MunicipalCourt), Clipped1)));
  }

  /** The line coordinates of the five runs: the two TD moves go 134.638164
      down each, and "C" lies 0.003672 from "ATLANTI". */
  lemma ClippedLines()
    ensures var m1 := MatrixOf(Rotated(Decimal(false, 32, 2, 64, 2), RotatedF1));
      LineCoordinate(m1) == -332.928 && m1.a * m1.d - m1.b * m1.c == 104.04
    ensures LineCoordinate(MatrixOf(Rotated(Decimal(false, 59, 2, 4, 2), Decimal(false, 414, 3, 7839, 4)))) == -602.208
    ensures LineCoordinate(MatrixOf(Rotated(Decimal(false, 72, 2, 24, 2), Decimal(false, 364, 3, 8, 1)))) == -736.848
    ensures DecimalValue(Step) == -1.2941
  {
  }

  /** The matrices of the first block: the Tm, then the two TD moves. */
  const ClipTop := MatrixOf(Rotated(Decimal(false, 32, 2, 64, 2), RotatedF1))
  const ClipSecond := Translate(ClipTop, DecimalValue(Decimal(false, 2, 1, 1882, 4)), DecimalValue(Step))
  const ClipThird := Translate(ClipSecond, DecimalValue(Decimal(false, 3, 1, 706, 4)), DecimalValue(Step))

  /** The first block: three runs, each on a new line. */
  lemma ClippedFirstBlock(tol: real)
    requires 0.0 <= tol < 134.638164
    ensures RunScript(Initial, ClippedStream, tol) == RunScript(ShownAt(ClipThird, [MunicipalCourt] + [[], July2021] + [[], Atlanti]), Clipped3, tol)
    ensures LineCoordinate(ClipThird) == -602.204328
  {
    ClippedLines();
    TmRunsNonEmpty();
    assert July2021 != [] && Atlanti != [];
    assert LineCoordinate(ClipSecond) == -467.566164;
    assert LineCoordinate(ClipThird) == -602.204328;
    var i1: seq<Bytes> := [MunicipalCourt];
    var i2 := i1 + [[], July2021];
    SkipBT(Initial, Then(Tm(Rotated(Decimal(false, 32, 2, 64, 2), RotatedF1)), Then(Tj(MunicipalCourt), Clipped1)), tol);
    PlaceFirst(Initial, Rotated(Decimal(false, 32, 2, 64, 2), RotatedF1), MunicipalCourt, Clipped1, tol);
    MoveBreak(ShownAt(ClipTop, i1), Decimal(false, 2, 1, 1882, 4), Step, July2021, Clipped2, tol);
    MoveBreak(ShownAt(ClipSecond, i2), Decimal(false, 3, 1, 706, 4), Step, Atlanti, Clipped3, tol);
  }

  /** The clipped block and the last one: "C" joins the line of the run
      before it, and "BRIGANTINE" starts a new line. */
  lemma ClippedLaterBlocks(m: Matrix, items: seq<Bytes>, tol: real)
    requires 0.003672 <= tol < 134.638164 && LineCoordinate(m) == -602.204328
    ensures RunScript(ShownAt(m, items), Clipped3, tol).items == items + [LetterC] + [[], Brigantine]
  {
    ClippedLines();
    ClipInert();
    assert LetterC != [] && Brigantine != [];
    var m4 := MatrixOf(Rotated(Decimal(false, 59, 2, 4, 2), Decimal(false, 414, 3, 7839, 4)));
    var m5 := MatrixOf(Rotated(Decimal(false, 72, 2, 24, 2), Decimal(false, 364, 3, 8, 1)));
    var i4 := items + [LetterC];
    SkipAll(ShownAt(m, items), ClipCommands, Clipped4, tol);
    PlaceSame(ShownAt(m, items), Rotated(Decimal(false, 59, 2, 4, 2), Decimal(false, 414, 3, 7839, 4)), LetterC, Clipped5, tol);
    SkipAll(ShownAt(m4, i4), RestoreCommands, Clipped6, tol);
    PlaceBreak(ShownAt(m4, i4), Rotated(Decimal(false, 72, 2, 24, 2), Decimal(false, 364, 3, 8, 1)), Brigantine, EndStream, tol);
    StopET(ShownAt(m5, i4 + [[], Brigantine]), tol);
  }

  lemma ClippedItems(tol: real)
    requires 0.003672 <= tol < 134.638164
    ensures RunScript(Initial, ClippedStream, tol).items == [MunicipalCourt] + [[], July2021] + [[], Atlanti] + [LetterC] + [[], Brigantine]
  {
    ClippedFirstBlock(tol);
    ClippedLaterBlocks(ClipThird, [MunicipalCourt] + [[], July2021] + [[], Atlanti], tol);
  }

  /** The items the clipped stream leaves, as its four lines joined by markers. */
  lemma ClippedJoin(a: Bytes, b: Bytes, c: Bytes, d: Bytes, e: Bytes)
    requires a != [] && b != [] && c != [] && d != [] && e != []
    ensures [a] + [[], b] + [[], c] + [d] + [[], e] == JoinLines([[a], [b], [c, d], [e]])
    ensures WellFormed([[a], [b], [c, d], [e]])
  {
    JoinFour([a], [b], [c, d], [e]);
  }

  lemma ClippedJoined(tol: real)
    requires 0.003672 <= tol < 134.638164
    ensures RunScript(Initial, ClippedStream, tol).items == JoinLines([[MunicipalCourt], [July2021], [Atlanti, LetterC], [Brigantine]])
    ensures WellFormed([[MunicipalCourt], [July2021], [Atlanti, LetterC], [Brigantine]])
  {
    ClippedItems(tol);
    TmRunsNonEmpty();
    assert July2021 != [] && Atlanti != [] && LetterC != [] && Brigantine != [];
    ClippedJoin(MunicipalCourt, July2021, Atlanti, LetterC, Brigantine);
  }

  /** "ATLANTI" and the clipped "C" lie 0.003672 apart and share a line;
      "BRIGANTINE" is the next line. */
  lemma ClippedAcrossBlocks(tol: real)
    requires 0.003672 <= tol < 134.638164
    ensures GroupIntoLines(Extract(Written(ClippedStream), tol)) == [[MunicipalCourt], [July2021], [Atlanti, LetterC], [Brigantine]]
  {
    ClippedJoined(tol);
    ClippedStreamOk();
    WrittenGroups(ClippedStream, tol, [[MunicipalCourt], [July2021], [Atlanti, LetterC], [Brigantine]]);
  }

  /** One tolerance passes every test: any tol with 0.003672 <= tol < 12
      gives each of the nine test streams the outcome its test expects. */
  lemma AllTests(tol: real)
    requires 0.003672 <= tol < 12.0
    ensures NonEmpty(Extract(Written(TjStream), tol)) == ["Hello World"]
    ensures NonEmpty(Extract(Written(KernedStream), tol)) == ["88", "23"]
    ensures NonEmpty(Extract(Written(HelloStream), tol)) == ["Hello"]
    ensures NonEmpty(Extract(Written(MovingStream), tol)) == ["(moving)"]
    ensures NonEmpty(Extract(Written(MixedStream), tol)) == [MunicipalCourt, July2023, Atlantic, Absecon, Courts, OtherCourts, Criminal]
    ensures GroupIntoLines(Extract(Written(MovedStream), tol)) == [[Line1], [Line2]]
    ensures GroupIntoLines(Extract(Written(UprightStream), tol)) == [[MunicipalCourt], [July2023], [Hudson], [UnionCit, CitY], [NextLine]]
    ensures GroupIntoLines(Extract(Written(RotatedStream), tol)) == [[MunicipalCourt, July2023], [Hudson], [UnionCit, CitY], [NextLine]]
    ensures GroupIntoLines(Extract(Written(ClippedStream), tol)) == [[MunicipalCourt], [July2021], [Atlanti, LetterC], [Brigantine]]
  {
    SingleTj(tol);
    KerningSplitsRuns(tol);
    SmallKerningJoinsRuns(tol);
    EscapedParens(tol);
    MixedTjAndTJ(tol);
    TDLineBreak(tol);
    TmSameLine(tol);
    RotatedGroups(tol);
    ClippedAcrossBlocks(tol);
  }
}
