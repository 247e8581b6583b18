/** Content streams written command by command: the operands, the operator
    name, then the whitespace after it. A written stream tokenizes back to
    its commands, and extracting it applies the commands one after another,
    each to exactly the operands written in front of it. */
module Streams {
  import opened Base
  import opened Lexer
  import opened Positioning
  import opened Extractor

  /** One element of a TJ array as written: a kerning number or a string. */
  datatype Part = KernPart(amount: Decimal) | StringPart(text: Bytes)

  /** An operand as written: a decimal, a literal string or an array. */
  datatype Arg = NumberArg(value: Decimal) | StringArg(text: Bytes) | ArrayArg(parts: seq<Part>)

  /** Operands, the operator name, and the whitespace that follows it. */
  datatype Command = Command(args: seq<Arg>, name: Bytes, after: Bytes)

  datatype Script = End | Then(command: Command, rest: Script)

  // ---------------------------------------------------------------------
  // Writing a script

  function PartLexeme(p: Part): Lexeme
  {
    match p
    case KernPart(d) => Numeric(d)
    case StringPart(t) => Quoted(t)
  }

  /** Array elements are written with no whitespace, except between two
      kerning numbers. */
  function PartPieces(parts: seq<Part>): seq<Spaced>
  {
    if parts == [] then []
    else [Spaced(PartLexeme(parts[0]), if parts[0].KernPart? && |parts| > 1 && parts[1].KernPart? then " " else [])]
         + PartPieces(parts[1..])
  }

  /** A number is followed by a space, a string or an array by nothing. */
  function ArgPieces(a: Arg): seq<Spaced>
  {
    match a
    case NumberArg(d) => [Spaced(Numeric(d), " ")]
    case StringArg(t) => [Spaced(Quoted(t), [])]
    case ArrayArg(parts) => [Spaced(Open, [])] + PartPieces(parts) + [Spaced(Close, [])]
  }

  function ArgsPieces(args: seq<Arg>): seq<Spaced>
  {
    if args == [] then [] else ArgPieces(args[0]) + ArgsPieces(args[1..])
  }

  function CommandPieces(c: Command): seq<Spaced>
  {
    ArgsPieces(c.args) + [Spaced(Word(c.name), c.after)]
  }

  function ScriptPieces(s: Script): seq<Spaced>
  {
    match s
    case End => []
    case Then(c, rest) => CommandPieces(c) + ScriptPieces(rest)
  }

  /** The bytes of a written content stream. */
  function Written(s: Script): Bytes
  {
    Render(ScriptPieces(s))
  }

  /** Every decimal fits its widths. */
  predicate ArgOk(a: Arg)
  {
    match a
    case NumberArg(d) => ValidDecimal(d)
    case StringArg(_) => true
    case ArrayArg(parts) => forall k :: 0 <= k < |parts| ==> parts[k].KernPart? ==> ValidDecimal(parts[k].amount)
  }

  /** An operator name is a bare word that does not read as a number. */
  predicate NameOk(name: Bytes)
  {
    IsBareWord(name) && ParseNumber(name).None?
  }

  predicate CommandOk(c: Command)
  {
    (forall k :: 0 <= k < |c.args| ==> ArgOk(c.args[k])) && NameOk(c.name) && IsGap(c.after)
  }

  /** Every command is writable, and only the last may end without whitespace. */
  predicate ScriptOk(s: Script)
  {
    match s
    case End => true
    case Then(c, rest) => CommandOk(c) && (c.after == [] ==> rest == End) && ScriptOk(rest)
  }

  // ---------------------------------------------------------------------
  // Running a script

  function PartElem(p: Part): Elem
  {
    match p
    case KernPart(d) => Kern(DecimalValue(d))
    case StringPart(t) => Glyphs(t)
  }

  function PartElems(parts: seq<Part>): seq<Elem>
  {
    if parts == [] then [] else [PartElem(parts[0])] + PartElems(parts[1..])
  }

  function ArgOperand(a: Arg): Operand
  {
    match a
    case NumberArg(d) => Num(DecimalValue(d))
    case StringArg(t) => Str(t)
    case ArrayArg(parts) => Arr(PartElems(parts))
  }

  function ArgOperands(args: seq<Arg>): (r: seq<Operand>)
    ensures |r| == |args| && forall k :: 0 <= k < |args| ==> r[k] == ArgOperand(args[k])
  {
    if args == [] then [] else [ArgOperand(args[0])] + ArgOperands(args[1..])
  }

  /** The operator applied to the operands written with it. */
  function RunCommand(st: State, c: Command, tol: real): State
  {
    Apply(st, Classify(c.name), ArgOperands(c.args), tol)
  }

  function RunScript(st: State, s: Script, tol: real): State
    decreases s
  {
    match s
    case End => st
    case Then(c, rest) => RunScript(RunCommand(st, c, tol), rest, tol)
  }

  /** The text runs of a script, without positions: the runs each show
      operator contributes from its own operands. */
  function ScriptRuns(s: Script): seq<Bytes>
    decreases s
  {
    match s
    case End => []
    case Then(c, rest) => Shown(Classify(c.name), ArgOperands(c.args)) + ScriptRuns(rest)
  }

  /** Whatever the matrices and the tolerance, running a script adds exactly
      its runs to the text. */
  lemma {:induction false} RunScriptKeepsText(st: State, s: Script, tol: real)
    ensures NonEmpty(RunScript(st, s, tol).items) == NonEmpty(st.items) + ScriptRuns(s)
    decreases s
  {
    match s
    case End =>
      assert NonEmpty(st.items) + [] == NonEmpty(st.items);
    case Then(c, rest) =>
      var next := RunCommand(st, c, tol);
      var shown := Shown(Classify(c.name), ArgOperands(c.args));
      assert NonEmpty(next.items) == NonEmpty(st.items) + shown by {
        ApplyKeepsText(st, Classify(c.name), ArgOperands(c.args), tol);
      }
      RunScriptKeepsText(next, rest, tol);
      assert ScriptRuns(s) == shown + ScriptRuns(rest);
      AppendAssociative(NonEmpty(st.items), shown, ScriptRuns(rest));
  }

  // ---------------------------------------------------------------------
  // Writing is well spaced

  lemma {:induction false} PartsWellSpaced(parts: seq<Part>)
    requires forall k :: 0 <= k < |parts| ==> parts[k].KernPart? ==> ValidDecimal(parts[k].amount)
    ensures WellSpaced(PartPieces(parts))
    ensures parts != [] ==> PartPieces(parts)[0].lexeme == PartLexeme(parts[0])
  {
    if parts != [] {
      var ps := PartPieces(parts);
      var rest := parts[1..];
      assert ps[1..] == PartPieces(rest);
      assert IsGap(ps[0].gap) by {
        if ps[0].gap != [] {
          assert ps[0].gap == " ";
        }
      }
      PartsWellSpaced(rest);
    }
  }

  lemma ArgWellSpaced(a: Arg)
    requires ArgOk(a)
    ensures WellSpaced(ArgPieces(a))
    ensures var ps := ArgPieces(a); ps != [] && (!IsBare(ps[|ps| - 1].lexeme) || ps[|ps| - 1].gap != [])
  {
    match a
    case NumberArg(d) =>
      assert IsGap(" ") by { assert " "[0] == ' '; }
      assert WellSpaced(ArgPieces(a)[1..]);
    case StringArg(t) =>
      assert WellSpaced(ArgPieces(a)[1..]);
    case ArrayArg(parts) =>
      var open: seq<Spaced> := [Spaced(Open, [])];
      var close: seq<Spaced> := [Spaced(Close, [])];
      assert WellSpaced(close) by { assert WellSpaced(close[1..]); }
      assert WellSpaced(open) by { assert WellSpaced(open[1..]); }
      PartsWellSpaced(parts);
      WellSpacedAppend(PartPieces(parts), close);
      WellSpacedAppend(open, PartPieces(parts) + close);
      assert ArgPieces(a) == open + (PartPieces(parts) + close);
  }

  /** The pieces of some operands end in a delimiter or in whitespace. */
  predicate EndsDelimited(ps: seq<Spaced>)
  {
    ps == [] || !IsBare(ps[|ps| - 1].lexeme) || ps[|ps| - 1].gap != []
  }

  lemma {:induction false} ArgsWellSpaced(args: seq<Arg>)
    requires forall k :: 0 <= k < |args| ==> ArgOk(args[k])
    ensures WellSpaced(ArgsPieces(args)) && EndsDelimited(ArgsPieces(args))
  {
    if args != [] {
      var xs, ys := ArgPieces(args[0]), ArgsPieces(args[1..]);
      ArgWellSpaced(args[0]);
      assert forall k :: 0 <= k < |args[1..]| ==> ArgOk(args[1..][k]) by {
        forall k | 0 <= k < |args[1..]| ensures ArgOk(args[1..][k]) {
          assert args[1..][k] == args[k + 1];
        }
      }
      ArgsWellSpaced(args[1..]);
      WellSpacedAppend(xs, ys);
      DelimitedAppend(xs, ys);
    }
  }

  lemma DelimitedAppend(xs: seq<Spaced>, ys: seq<Spaced>)
    requires EndsDelimited(xs) && EndsDelimited(ys)
    ensures EndsDelimited(xs + ys)
  {
  }

  lemma CommandWellSpaced(c: Command)
    requires CommandOk(c)
    ensures WellSpaced(CommandPieces(c))
  {
    ArgsWellSpaced(c.args);
    var last: seq<Spaced> := [Spaced(Word(c.name), c.after)];
    assert WellSpaced(last) by { assert WellSpaced(last[1..]); }
    WellSpacedAppend(ArgsPieces(c.args), last);
  }

  lemma {:induction false} ScriptWellSpaced(s: Script)
    requires ScriptOk(s)
    ensures WellSpaced(ScriptPieces(s))
  {
    match s
    case End =>
    case Then(c, rest) =>
      CommandWellSpaced(c);
      ScriptWellSpaced(rest);
      var xs := CommandPieces(c);
      assert xs[|xs| - 1] == Spaced(Word(c.name), c.after);
      WellSpacedAppend(xs, ScriptPieces(rest));
  }

  // ---------------------------------------------------------------------
  // Executing the tokens of a written script

  lemma {:induction false} PartsTokens(parts: seq<Part>)
    ensures TokensOf(PartPieces(parts)) == ElemTokens(PartElems(parts))
  {
    if parts != [] {
      PartsTokens(parts[1..]);
      assert PartPieces(parts)[1..] == PartPieces(parts[1..]);
    }
  }

  lemma ArgExecute(st: State, ops: seq<Operand>, a: Arg, tol: real)
    ensures Execute(Machine(st, Pending(ops, None)), TokensOf(ArgPieces(a)), tol)
         == Machine(st, Pending(ops + [ArgOperand(a)], None))
  {
    var mc := Machine(st, Pending(ops, None));
    match a
    case NumberArg(d) =>
      OneToken(mc, Number(DecimalValue(d)), tol);
    case StringArg(t) =>
      OneToken(mc, Literal(t), tol);
    case ArrayArg(parts) =>
      var elems := PartElems(parts);
      ArrayTokens(parts);
      var inner := [ArrayOpen] + ElemTokens(elems);
      ExecuteAppend(mc, inner, [ArrayClose], tol);
      ExecuteAppend(mc, [ArrayOpen], ElemTokens(elems), tol);
      OneToken(mc, ArrayOpen, tol);
      CaptureElems(st, ops, [], elems, tol);
      assert [] + elems == elems;
      var captured := Machine(st, Pending(ops, Some(elems)));
      assert Execute(mc, inner, tol) == captured;
      OneToken(captured, ArrayClose, tol);
  }

  lemma ArrayTokens(parts: seq<Part>)
    ensures TokensOf(ArgPieces(ArrayArg(parts))) == [ArrayOpen] + ElemTokens(PartElems(parts)) + [ArrayClose]
  {
    var open: seq<Spaced> := [Spaced(Open, [])];
    var close: seq<Spaced> := [Spaced(Close, [])];
    TokensOfAppend(open, PartPieces(parts));
    TokensOfAppend(open + PartPieces(parts), close);
    PartsTokens(parts);
    assert TokensOf(open) == [ArrayOpen];
    assert TokensOf(close) == [ArrayClose];
  }

  lemma {:induction false} ArgsExecute(st: State, ops: seq<Operand>, args: seq<Arg>, tol: real)
    ensures Execute(Machine(st, Pending(ops, None)), TokensOf(ArgsPieces(args)), tol)
         == Machine(st, Pending(ops + ArgOperands(args), None))
    decreases |args|
  {
    if args == [] {
      assert ops + [] == ops;
    } else {
      var a, rest := args[0], args[1..];
      var mc := Machine(st, Pending(ops, None));
      var xs, ys := TokensOf(ArgPieces(a)), TokensOf(ArgsPieces(rest));
      assert TokensOf(ArgsPieces(args)) == xs + ys by {
        TokensOfAppend(ArgPieces(a), ArgsPieces(rest));
      }
      ExecuteAppend(mc, xs, ys, tol);
      ArgExecute(st, ops, a, tol);
      ArgsExecute(st, ops + [ArgOperand(a)], rest, tol);
      assert ArgOperands(args) == [ArgOperand(a)] + ArgOperands(rest);
      AppendAssociative(ops, [ArgOperand(a)], ArgOperands(rest));
    }
  }

  lemma CommandExecute(st: State, c: Command, tol: real)
    requires NameOk(c.name)
    ensures Execute(Machine(st, NoOperands), TokensOf(CommandPieces(c)), tol) == Machine(RunCommand(st, c, tol), NoOperands)
  {
    var last: seq<Spaced> := [Spaced(Word(c.name), c.after)];
    TokensOfAppend(ArgsPieces(c.args), last);
    assert TokensOf(last) == [Operator(c.name)];
    ExecuteAppend(Machine(st, NoOperands), TokensOf(ArgsPieces(c.args)), [Operator(c.name)], tol);
    ArgsExecute(st, [], c.args, tol);
    assert [] + ArgOperands(c.args) == ArgOperands(c.args);
    OneToken(Machine(st, Pending(ArgOperands(c.args), None)), Operator(c.name), tol);
  }

  lemma {:induction false} ScriptExecute(st: State, s: Script, tol: real)
    requires ScriptOk(s)
    ensures Execute(Machine(st, NoOperands), TokensOf(ScriptPieces(s)), tol) == Machine(RunScript(st, s, tol), NoOperands)
    decreases s
  {
    match s
    case End =>
    case Then(c, rest) =>
      TokensOfAppend(CommandPieces(c), ScriptPieces(rest));
      ExecuteAppend(Machine(st, NoOperands), TokensOf(CommandPieces(c)), TokensOf(ScriptPieces(rest)), tol);
      CommandExecute(st, c, tol);
      ScriptExecute(RunCommand(st, c, tol), rest, tol);
  }

  /** A written stream is extracted as its commands run one after another:
      tokenizing loses, splits and merges nothing, and every operator sees
      exactly the operands written in its own command. */
  lemma WrittenExtract(s: Script, tol: real)
    requires ScriptOk(s)
    ensures Tokens(Written(s)) == TokensOf(ScriptPieces(s))
    ensures Extract(Written(s), tol) == RunScript(Initial, s, tol).items
  {
    ScriptWellSpaced(s);
    RenderTokens(ScriptPieces(s));
    ScriptExecute(Initial, s, tol);
  }

  /** The text runs extracted from a written stream, markers aside. */
  lemma WrittenText(s: Script, tol: real, runs: seq<Bytes>)
    requires ScriptOk(s) && ScriptRuns(s) == runs
    ensures NonEmpty(Extract(Written(s), tol)) == runs
  {
    WrittenExtract(s, tol);
    RunScriptKeepsText(Initial, s, tol);
  }
}
