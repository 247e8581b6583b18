/** The operand buffer and operator dispatcher, and ExtractTextItems: the
    whole pass from content-stream bytes to the item sequence of text runs
    and break markers. */
module Extractor {
  import opened Base
  import opened Lexer
  import opened Positioning

  /** A buffered operand: a number, a literal string, or a whole array. */
  datatype Operand = Num(value: real) | Str(text: Bytes) | Arr(elems: seq<Elem>)

  /** The operands buffered since the last operator, and the array being
      captured, if a '[' is open. */
  datatype Pending = Pending(operands: seq<Operand>, capture: Option<seq<Elem>>)

  const NoOperands := Pending([], None)

  /** The operators the dispatcher tells apart; every other name is Other. */
  datatype Op = SetMatrix | Move | MoveSetLeading | ShowString | ShowArray | BeginText | EndText | Other

  function Classify(name: Bytes): Op
  {
    if name == "Tm" then SetMatrix
    else if name == "Td" then Move
    else if name == "TD" then MoveSetLeading
    else if name == "Tj" then ShowString
    else if name == "TJ" then ShowArray
    else if name == "BT" then BeginText
    else if name == "ET" then EndText
    else Other
  }

  /** Buffer a token that is not an operator. */
  function Push(p: Pending, t: Token): Pending
  {
    match t
    case Number(x) =>
      if p.capture.Some? then Pending(p.operands, Some(p.capture.value + [Kern(x)]))
      else Pending(p.operands + [Num(x)], None)
    case Literal(s) =>
      if p.capture.Some? then Pending(p.operands, Some(p.capture.value + [Glyphs(s)]))
      else Pending(p.operands + [Str(s)], None)
    case ArrayOpen => Pending(p.operands, Some([]))
    case ArrayClose =>
      if p.capture.Some? then Pending(p.operands + [Arr(p.capture.value)], None) else p
    case Operator(_) => p
  }

  /** The values of the operands, when all of them are numbers. */
  function Numbers(args: seq<Operand>): (r: Option<seq<real>>)
    ensures r.Some? <==> forall k :: 0 <= k < |args| ==> args[k].Num?
    ensures r.Some? ==> |r.value| == |args| && forall k :: 0 <= k < |args| ==> r.value[k] == args[k].value
  {
    if args == [] then Some([])
    else if !args[0].Num? then None
    else match Numbers(args[1..])
      case Some(v) => Some([args[0].value] + v)
      case None => None
  }

  /** The last n operands, when there are that many and all of them are
      numbers. */
  function LastNumbers(args: seq<Operand>, n: nat): (r: Option<seq<real>>)
    ensures r.Some? ==> |r.value| == n
  {
    if n > |args| then None else Numbers(args[|args| - n..])
  }

  /** What an operator does to the positioning state, given the operands
      buffered before it. */
  function Apply(st: State, op: Op, args: seq<Operand>, tol: real): State
  {
    match op
    case SetMatrix =>
      (match LastNumbers(args, 6)
       case Some(v) => st.(m := Matrix(v[0], v[1], v[2], v[3], v[4], v[5]))
       case None => st)
    case Move | MoveSetLeading =>
      (match LastNumbers(args, 2)
       case Some(v) => st.(m := Translate(st.m, v[0], v[1]))
       case None => st)
    case ShowString =>
      if args != [] && args[|args| - 1].Str? then Show(st, [Glyphs(args[|args| - 1].text)], tol) else st
    case ShowArray =>
      if args != [] && args[|args| - 1].Arr? then Show(st, args[|args| - 1].elems, tol) else st
    case _ => st
  }

  datatype Machine = Machine(text: State, pending: Pending)

  const Ready := Machine(Initial, NoOperands)

  /** One token: an operator is applied to the buffer, which is then cleared
      whether or not the operator was recognised; anything else is buffered. */
  function Dispatch(mc: Machine, t: Token, tol: real): Machine
  {
    if t.Operator? then Machine(Apply(mc.text, Classify(t.name), mc.pending.operands, tol), NoOperands)
    else Machine(mc.text, Push(mc.pending, t))
  }

  function Execute(mc: Machine, tokens: seq<Token>, tol: real): Machine
    decreases |tokens|
  {
    if tokens == [] then mc else Execute(Dispatch(mc, tokens[0], tol), tokens[1..], tol)
  }

  /** The item sequence of a content stream: text runs in stream order, with
      an empty item wherever a run starts a new line. */
  function Extract(content: Bytes, tol: real): seq<Bytes>
  {
    Execute(Ready, Tokens(content), tol).text.items
  }

  /** The text runs an operator contributes, from its operands alone. */
  function Shown(op: Op, args: seq<Operand>): seq<Bytes>
  {
    match op
    case ShowString =>
      if args != [] && args[|args| - 1].Str? then Runs([Glyphs(args[|args| - 1].text)]) else []
    case ShowArray =>
      if args != [] && args[|args| - 1].Arr? then Runs(args[|args| - 1].elems) else []
    case _ => []
  }

  /** An operator appends exactly its shown runs to the text, whatever the
      positioning state; only markers depend on the matrix. */
  lemma ApplyKeepsText(st: State, op: Op, args: seq<Operand>, tol: real)
    ensures NonEmpty(Apply(st, op, args, tol).items) == NonEmpty(st.items) + Shown(op, args)
  {
    match op
    case ShowString =>
      if args != [] && args[|args| - 1].Str? {
        ShowFromKeepsText(st, [], [Glyphs(args[|args| - 1].text)], tol);
      } else {
        assert NonEmpty(st.items) + [] == NonEmpty(st.items);
      }
    case ShowArray =>
      if args != [] && args[|args| - 1].Arr? {
        ShowFromKeepsText(st, [], args[|args| - 1].elems, tol);
      } else {
        assert NonEmpty(st.items) + [] == NonEmpty(st.items);
      }
    case _ =>
      assert NonEmpty(st.items) + [] == NonEmpty(st.items);
  }

  /** Only Tj and TJ touch the items and the last line coordinate; Tm, Td and
      TD change only the matrix; BT, ET and every other operator change
      nothing. */
  lemma ApplyFrame(st: State, op: Op, args: seq<Operand>, tol: real)
    ensures op != ShowString && op != ShowArray ==>
      Apply(st, op, args, tol).items == st.items && Apply(st, op, args, tol).last == st.last
    ensures op == BeginText || op == EndText || op == Other ==> Apply(st, op, args, tol) == st
    ensures op == ShowString || op == ShowArray ==> Apply(st, op, args, tol).m == st.m
  {
    if op == ShowString && args != [] && args[|args| - 1].Str? {
      ShowLayoutMatrix(st, [Glyphs(args[|args| - 1].text)], tol);
    } else if op == ShowArray && args != [] && args[|args| - 1].Arr? {
      ShowLayoutMatrix(st, args[|args| - 1].elems, tol);
    }
  }

  lemma ShowLayoutMatrix(st: State, elems: seq<Elem>, tol: real)
    ensures Show(st, elems, tol).m == st.m
  {
    ShowFromEmitsRuns(st, [], elems, tol);
    EmitAllKeepsMatrix(st, Runs(elems), tol);
  }

  lemma {:induction false} EmitAllKeepsMatrix(st: State, runs: seq<Bytes>, tol: real)
    ensures EmitAll(st, runs, tol).m == st.m
    decreases |runs|
  {
    if runs != [] {
      EmitAllKeepsMatrix(Emit(st, runs[0], tol), runs[1..], tol);
    }
  }

  /** The text runs of a token sequence, read with the operand buffer `p`:
      the runs every show operator contributes, in stream order. No matrix
      and no tolerance is involved. */
  function TextRuns(p: Pending, tokens: seq<Token>): seq<Bytes>
    decreases |tokens|
  {
    if tokens == [] then []
    else if tokens[0].Operator? then Shown(Classify(tokens[0].name), p.operands) + TextRuns(NoOperands, tokens[1..])
    else TextRuns(Push(p, tokens[0]), tokens[1..])
  }

  lemma {:induction false} ExecuteKeepsText(mc: Machine, tokens: seq<Token>, tol: real)
    ensures NonEmpty(Execute(mc, tokens, tol).text.items) == NonEmpty(mc.text.items) + TextRuns(mc.pending, tokens)
    decreases |tokens|
  {
    if tokens != [] {
      var t := tokens[0];
      ExecuteKeepsText(Dispatch(mc, t, tol), tokens[1..], tol);
      if t.Operator? {
        ApplyKeepsText(mc.text, Classify(t.name), mc.pending.operands, tol);
      }
    }
  }

  /** Leaving the markers aside, the extracted items are the text runs of the
      stream's tokens in stream order. */
  lemma ExtractedText(content: Bytes, tol: real)
    ensures NonEmpty(Extract(content, tol)) == TextRuns(NoOperands, Tokens(content))
  {
    ExecuteKeepsText(Ready, Tokens(content), tol);
  }

  /** The tolerance decides only where the markers go, never which runs are
      extracted or in what order. */
  lemma ToleranceKeepsText(content: Bytes, tol1: real, tol2: real)
    ensures NonEmpty(Extract(content, tol1)) == NonEmpty(Extract(content, tol2))
  {
    ExtractedText(content, tol1);
    ExtractedText(content, tol2);
  }

  lemma {:induction false} ExecuteAppend(mc: Machine, xs: seq<Token>, ys: seq<Token>, tol: real)
    ensures Execute(mc, xs + ys, tol) == Execute(Execute(mc, xs, tol), ys, tol)
    decreases |xs|
  {
    if xs == [] {
      assert xs + ys == ys;
    } else {
      assert (xs + ys)[1..] == xs[1..] + ys;
      ExecuteAppend(Dispatch(mc, xs[0], tol), xs[1..], ys, tol);
    }
  }

  lemma {:induction false} ExecuteConsistent(mc: Machine, tokens: seq<Token>, tol: real)
    requires Consistent(mc.text)
    ensures Consistent(Execute(mc, tokens, tol).text)
    decreases |tokens|
  {
    if tokens != [] {
      var t := tokens[0];
      if t.Operator? {
        var args := mc.pending.operands;
        match Classify(t.name)
        case ShowString =>
          if args != [] && args[|args| - 1].Str? {
            ShowConsistent(mc.text, [Glyphs(args[|args| - 1].text)], tol);
          }
        case ShowArray =>
          if args != [] && args[|args| - 1].Arr? {
            ShowConsistent(mc.text, args[|args| - 1].elems, tol);
          }
        case _ =>
      }
      ExecuteConsistent(Dispatch(mc, t, tol), tokens[1..], tol);
    }
  }

  /** Every break marker in the extracted items is followed by a text run:
      no two markers are adjacent and none is last. */
  lemma ExtractSeparated(content: Bytes, tol: real)
    ensures Separated(Extract(content, tol))
  {
    ExecuteConsistent(Ready, Tokens(content), tol);
  }

  /** The token that writes one TJ array element. */
  function ElemToken(x: Elem): Token
  {
    match x
    case Kern(n) => Number(n)
    case Glyphs(t) => Literal(t)
  }

  function ElemTokens(elems: seq<Elem>): seq<Token>
  {
    if elems == [] then [] else [ElemToken(elems[0])] + ElemTokens(elems[1..])
  }

  /** `a b c d e f Tm`: the matrix becomes [a b c d e f]; nothing else changes. */
  lemma ExecuteSetMatrix(st: State, a: real, b: real, c: real, d: real, e: real, f: real, tol: real)
    ensures Execute(Machine(st, NoOperands), NumberTokens([a, b, c, d, e, f]) + [Operator("Tm")], tol)
         == Machine(st.(m := Matrix(a, b, c, d, e, f)), NoOperands)
  {
    var mc := Machine(st, NoOperands);
    var xs := [a, b, c, d, e, f];
    var args := NumberOperands(xs);
    ExecuteAppend(mc, NumberTokens(xs), [Operator("Tm")], tol);
    BufferedNumbers(st, [], xs, tol);
    assert [] + args == args;
    LastNumbersOfNumbers(xs);
    OneToken(Machine(st, Pending(args, None)), Operator("Tm"), tol);
  }

  /** `tx ty Td` and `tx ty TD`: the position moves by (tx, ty) in the
      current text space. */
  lemma ExecuteMove(st: State, tx: real, ty: real, name: Bytes, tol: real)
    requires name == "Td" || name == "TD"
    ensures Execute(Machine(st, NoOperands), NumberTokens([tx, ty]) + [Operator(name)], tol)
         == Machine(st.(m := Translate(st.m, tx, ty)), NoOperands)
  {
    var xs := [tx, ty];
    var args := NumberOperands(xs);
    ExecuteAppend(Machine(st, NoOperands), NumberTokens(xs), [Operator(name)], tol);
    BufferedNumbers(st, [], xs, tol);
    assert [] + args == args;
    LastNumbersOfNumbers(xs);
    OneToken(Machine(st, Pending(args, None)), Operator(name), tol);
  }

  /** `(s) Tj`: the string is shown as one run. */
  lemma ExecuteShowString(st: State, s: Bytes, tol: real)
    ensures Execute(Machine(st, NoOperands), [Literal(s), Operator("Tj")], tol)
         == Machine(Show(st, [Glyphs(s)], tol), NoOperands)
  {
    ExecuteAppend(Machine(st, NoOperands), [Literal(s)], [Operator("Tj")], tol);
    OneToken(Machine(st, NoOperands), Literal(s), tol);
    OneToken(Machine(st, Pending([Str(s)], None)), Operator("Tj"), tol);
  }

  lemma OneToken(mc: Machine, t: Token, tol: real)
    ensures Execute(mc, [t], tol) == Dispatch(mc, t, tol)
  {
  }

  lemma {:induction false} CaptureElems(st: State, args: seq<Operand>, pre: seq<Elem>, elems: seq<Elem>, tol: real)
    ensures Execute(Machine(st, Pending(args, Some(pre))), ElemTokens(elems), tol)
         == Machine(st, Pending(args, Some(pre + elems)))
    decreases |elems|
  {
    if elems == [] {
      assert pre + elems == pre;
    } else {
      assert ElemTokens(elems)[1..] == ElemTokens(elems[1..]);
      assert pre + [elems[0]] + elems[1..] == pre + elems;
      CaptureElems(st, args, pre + [elems[0]], elems[1..], tol);
    }
  }

  /** The closing bracket and the TJ operator after an array captured from
      an empty buffer. */
  lemma CloseShowArray(st: State, elems: seq<Elem>, tol: real)
    ensures Execute(Machine(st, Pending([], Some(elems))), [ArrayClose, Operator("TJ")], tol)
         == Machine(Show(st, elems, tol), NoOperands)
  {
  }

  /** `[ ... ] TJ`: the array's elements are shown, kerning included. */
  lemma ExecuteShowArray(st: State, elems: seq<Elem>, tol: real)
    ensures Execute(Machine(st, NoOperands), [ArrayOpen] + ElemTokens(elems) + [ArrayClose, Operator("TJ")], tol)
         == Machine(Show(st, elems, tol), NoOperands)
  {
    ExecuteAppend(Machine(st, NoOperands), [ArrayOpen] + ElemTokens(elems), [ArrayClose, Operator("TJ")], tol);
    ExecuteAppend(Machine(st, NoOperands), [ArrayOpen], ElemTokens(elems), tol);
    CaptureElems(st, [], [], elems, tol);
    assert [] + elems == elems;
    CloseShowArray(st, elems, tol);
  }

  /** The tokens of a list of numeric operands. */
  function NumberTokens(xs: seq<real>): seq<Token>
  {
    if xs == [] then [] else [Number(xs[0])] + NumberTokens(xs[1..])
  }

  function NumberOperands(xs: seq<real>): (r: seq<Operand>)
    ensures |r| == |xs| && forall k :: 0 <= k < |xs| ==> r[k] == Num(xs[k])
  {
    if xs == [] then [] else [Num(xs[0])] + NumberOperands(xs[1..])
  }

  lemma LastNumbersOfNumbers(xs: seq<real>)
    ensures LastNumbers(NumberOperands(xs), |xs|) == Some(xs)
  {
    var args := NumberOperands(xs);
    assert args[|args| - |xs|..] == args;
    assert Numbers(args).value == xs;
  }

  lemma {:induction false} BufferedNumbers(st: State, args: seq<Operand>, xs: seq<real>, tol: real)
    ensures Execute(Machine(st, Pending(args, None)), NumberTokens(xs), tol)
         == Machine(st, Pending(args + NumberOperands(xs), None))
    decreases |xs|
  {
    if xs == [] {
      assert args + [] == args;
    } else {
      BufferedNumbers(st, args + [Num(xs[0])], xs[1..], tol);
      assert args + [Num(xs[0])] + NumberOperands(xs[1..]) == args + NumberOperands(xs);
    }
  }

  /** An operator the extractor does not act on (BT, ET, q, Q, re, W, n, ...)
      swallows its numeric operands and leaves the positioning state and the
      items as they were. */
  lemma ExecuteIgnored(st: State, xs: seq<real>, name: Bytes, tol: real)
    requires Classify(name) == BeginText || Classify(name) == EndText || Classify(name) == Other
    ensures Execute(Machine(st, NoOperands), NumberTokens(xs) + [Operator(name)], tol) == Machine(st, NoOperands)
  {
    ExecuteAppend(Machine(st, NoOperands), NumberTokens(xs), [Operator(name)], tol);
    BufferedNumbers(st, [], xs, tol);
    OneToken(Machine(st, Pending([] + NumberOperands(xs), None)), Operator(name), tol);
  }

  /** Apply one operator to the TextState object. */
  method Perform(state: TextState, op: Op, args: seq<Operand>)
    requires state.Valid()
    modifies state
    ensures state.Valid() && state.Snapshot() == Apply(old(state.Snapshot()), op, args, state.tolerance)
  {
    if op == SetMatrix {
      var v := LastNumbers(args, 6);
      if v.Some? {
        state.SetTextMatrix(Matrix(v.value[0], v.value[1], v.value[2], v.value[3], v.value[4], v.value[5]));
      }
    } else if op == Move || op == MoveSetLeading {
      var v := LastNumbers(args, 2);
      if v.Some? {
        state.MoveTextPosition(v.value[0], v.value[1]);
      }
    } else if op == ShowString {
      if args != [] && args[|args| - 1].Str? {
        state.ShowText([Glyphs(args[|args| - 1].text)]);
      }
    } else if op == ShowArray {
      if args != [] && args[|args| - 1].Arr? {
        state.ShowText(args[|args| - 1].elems);
      }
    }
  }

  /** ExtractTextItems as one pass: tokenize, then dispatch each token,
      holding the operand buffer in local variables and the positioning
      state in a TextState object. */
  method ExtractTextItems(content: Bytes, tol: real) returns (items: seq<Bytes>)
    ensures items == Extract(content, tol)
    ensures Separated(items)
  {
    var tokens := Tokenize(content);
    var state := new TextState(tol);
    var operands: seq<Operand> := [];
    var capturing := false;
    var captured: seq<Elem> := [];
    var i := 0;
    while i < |tokens|
      invariant i <= |tokens| && state.Valid() && state.tolerance == tol
      invariant !capturing ==> captured == []
      invariant Execute(Machine(state.Snapshot(), Pending(operands, if capturing then Some(captured) else None)), tokens[i..], tol)
             == Execute(Ready, tokens, tol)
    {
      assert tokens[i..][1..] == tokens[i + 1..];
      match tokens[i] {
        case Number(x) =>
          if capturing { captured := captured + [Kern(x)]; } else { operands := operands + [Num(x)]; }
        case Literal(s) =>
          if capturing { captured := captured + [Glyphs(s)]; } else { operands := operands + [Str(s)]; }
        case ArrayOpen =>
          capturing, captured := true, [];
        case ArrayClose =>
          if capturing {
            operands := operands + [Arr(captured)];
            capturing, captured := false, [];
          }
        case Operator(name) =>
          Perform(state, Classify(name), operands);
          operands, capturing, captured := [], false, [];
      }
      i := i + 1;
    }
    items := state.items;
  }
}
