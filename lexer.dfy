/** The content-stream lexer: bytes to numbers, operator names, array
    brackets and literal strings, in one left-to-right pass. */
module Lexer {
  import opened Base

  datatype Token =
    | Number(value: real)
    | Operator(name: Bytes)
    | Literal(content: Bytes)
    | ArrayOpen
    | ArrayClose

  /** Space, tab, carriage return, line feed, form feed and null. */
  predicate IsWhitespace(c: Byte)
  {
    c == ' ' || c == '\t' || c == '\r' || c == '\n' || c == '\U{0C}' || c == '\0'
  }

  /** A byte that ends a bare word. */
  predicate IsDelimiter(c: Byte)
  {
    IsWhitespace(c) || c == '(' || c == ')' || c == '[' || c == ']'
  }

  predicate IsDigit(c: Byte) { '0' <= c <= '9' }

  // ---------------------------------------------------------------------
  // Numbers

  /** Progress of reading a numeral: the integer formed by all digits read,
      ten to the power of the digits read after the point, the number of
      digits read, and whether the point has been read. */
  datatype Numeral = Numeral(digits: int, scale: int, count: nat, dot: bool)

  function ScanNumeral(acc: Numeral, w: Bytes, i: nat): Option<Numeral>
    requires i <= |w|
    decreases |w| - i
  {
    if i == |w| then Some(acc)
    else if IsDigit(w[i]) then
      ScanNumeral(Numeral(acc.digits * 10 + (w[i] as int - '0' as int),
                          if acc.dot then acc.scale * 10 else acc.scale,
                          acc.count + 1, acc.dot), w, i + 1)
    else if w[i] == '.' && !acc.dot then ScanNumeral(acc.(dot := true), w, i + 1)
    else None
  }

  function SignLength(w: Bytes): nat
  {
    if |w| > 0 && w[0] == '-' then 1 else 0
  }

  /** The value of a bare word that is a numeral, or None. */
  function ParseNumber(w: Bytes): Option<real>
  {
    match ScanNumeral(Numeral(0, 1, 0, false), w, SignLength(w))
    case Some(n) =>
      if n.count == 0 || n.scale == 0 then None
      else Some((if SignLength(w) == 1 then -1.0 else 1.0) * (n.digits as real / n.scale as real))
    case None => None
  }

  /** The numeral grammar: an optional minus sign, then digits with at most
      one decimal point among them, and at least one digit. */
  predicate IsNumeral(w: Bytes)
  {
    var s := SignLength(w);
    (forall k :: s <= k < |w| ==> IsDigit(w[k]) || w[k] == '.')
    && (exists k :: s <= k < |w| && IsDigit(w[k]))
    && (forall j, k :: s <= j < k < |w| && w[j] == '.' ==> w[k] != '.')
  }

  /** What ScanNumeral accepts from position i on, given what it has read. */
  lemma {:induction false} ScanNumeralAccepts(acc: Numeral, w: Bytes, i: nat)
    requires i <= |w| && acc.scale > 0
    ensures var r := ScanNumeral(acc, w, i);
      && (r.Some? <==>
            (forall k :: i <= k < |w| ==> IsDigit(w[k]) || w[k] == '.')
            && (forall j, k :: i <= j < k < |w| && w[j] == '.' ==> w[k] != '.')
            && (acc.dot ==> forall k :: i <= k < |w| ==> w[k] != '.'))
      && (r.Some? ==>
            r.value.scale > 0
            && (r.value.count > 0 <==> acc.count > 0 || exists k :: i <= k < |w| && IsDigit(w[k])))
    decreases |w| - i
  {
    if i < |w| {
      if IsDigit(w[i]) {
        ScanNumeralAccepts(Numeral(acc.digits * 10 + (w[i] as int - '0' as int),
                                   if acc.dot then acc.scale * 10 else acc.scale,
                                   acc.count + 1, acc.dot), w, i + 1);
      } else if w[i] == '.' && !acc.dot {
        ScanNumeralAccepts(acc.(dot := true), w, i + 1);
      }
    }
  }

  /** A bare word is read as a number exactly when it follows the numeral grammar. */
  lemma ParseNumberMatchesGrammar(w: Bytes)
    ensures ParseNumber(w).Some? <==> IsNumeral(w)
  {
    ScanNumeralAccepts(Numeral(0, 1, 0, false), w, SignLength(w));
  }

  /** A bare word becomes a number when it is a numeral and an operator otherwise. */
  function WordToken(w: Bytes): Token
  {
    match ParseNumber(w)
    case Some(x) => Number(x)
    case None => Operator(w)
  }

  // ---------------------------------------------------------------------
  // Decimals as written in a content stream

  /** x followed by n zero digits: x * 10^n. */
  function Shift(x: int, n: nat): int
  {
    if n == 0 then x else 10 * Shift(x, n - 1)
  }

  function Pow10(n: nat): (r: int)
    ensures r > 0
  {
    if n == 0 then 1 else 10 * Pow10(n - 1)
  }

  lemma {:induction false} ShiftScales(x: int, n: nat)
    ensures Shift(x, n) == x * Pow10(n)
  {
    if n > 0 {
      ShiftScales(x, n - 1);
      assert 10 * (x * Pow10(n - 1)) == x * (10 * Pow10(n - 1));
    }
  }

  function DigitChar(k: nat): Byte
    requires k < 10
  {
    ['0', '1', '2', '3', '4', '5', '6', '7', '8', '9'][k]
  }

  /** The last `width` decimal digits of m, most significant first. */
  function DigitString(m: nat, width: nat): (r: Bytes)
    ensures |r| == width && forall k :: 0 <= k < width ==> IsDigit(r[k])
  {
    if width == 0 then [] else DigitString(m / 10, width - 1) + [DigitChar(m % 10)]
  }

  datatype Decimal = Decimal(negative: bool, whole: nat, wholeWidth: nat, frac: nat, places: nat)

  predicate ValidDecimal(d: Decimal)
  {
    d.wholeWidth + d.places > 0 && d.whole < Pow10(d.wholeWidth) && d.frac < Pow10(d.places)
  }

  function FractionText(frac: nat, places: nat): Bytes
  {
    if places > 0 then ['.'] + DigitString(frac, places) else []
  }

  function DecimalText(d: Decimal): Bytes
  {
    (if d.negative then ['-'] else []) + DigitString(d.whole, d.wholeWidth) + FractionText(d.frac, d.places)
  }

  function DecimalValue(d: Decimal): real
  {
    (if d.negative then -1.0 else 1.0) * (d.whole as real + d.frac as real / Pow10(d.places) as real)
  }

  lemma {:induction false} ScanDigits(acc: Numeral, w: Bytes, i: nat, m: nat, n: nat)
    requires i + n <= |w| && w[i..i + n] == DigitString(m, n) && m < Pow10(n)
    ensures ScanNumeral(acc, w, i)
         == ScanNumeral(Numeral(Shift(acc.digits, n) + m, if acc.dot then Shift(acc.scale, n) else acc.scale,
                                acc.count + n, acc.dot), w, i + n)
    decreases n
  {
    if n == 0 {
      assert m == 0;
      assert Numeral(Shift(acc.digits, n) + m, if acc.dot then Shift(acc.scale, n) else acc.scale, acc.count + n, acc.dot) == acc;
    } else {
      var q, r := m / 10, m % 10;
      assert q < Pow10(n - 1);
      assert w[i..i + n - 1] == DigitString(q, n - 1) && w[i + n - 1] == DigitChar(r) by {
        assert DigitString(m, n) == DigitString(q, n - 1) + [DigitChar(r)];
        assert w[i..i + n - 1] == w[i..i + n][..n - 1];
        assert w[i + n - 1] == w[i..i + n][n - 1];
      }
      ScanDigits(acc, w, i, q, n - 1);
      var mid := Numeral(Shift(acc.digits, n - 1) + q, if acc.dot then Shift(acc.scale, n - 1) else acc.scale,
                         acc.count + n - 1, acc.dot);
      DigitStep(mid, w, i + n - 1, r);
      var next := Numeral(Shift(acc.digits, n) + m, if acc.dot then Shift(acc.scale, n) else acc.scale,
                          acc.count + n, acc.dot);
      assert next.digits == mid.digits * 10 + r by {
        assert Shift(acc.digits, n) == 10 * Shift(acc.digits, n - 1);
        assert m == 10 * q + r;
      }
      assert next.scale == (if mid.dot then mid.scale * 10 else mid.scale) by {
        assert Shift(acc.scale, n) == 10 * Shift(acc.scale, n - 1);
      }
      assert next == Numeral(mid.digits * 10 + r, if mid.dot then mid.scale * 10 else mid.scale, mid.count + 1, mid.dot);
      assert ScanNumeral(acc, w, i) == ScanNumeral(next, w, i + n) by {
        assert ScanNumeral(acc, w, i) == ScanNumeral(mid, w, i + n - 1);
      }
    }
  }

  lemma DigitStep(acc: Numeral, w: Bytes, i: nat, r: nat)
    requires i < |w| && r < 10 && w[i] == DigitChar(r)
    ensures ScanNumeral(acc, w, i)
         == ScanNumeral(Numeral(acc.digits * 10 + r, if acc.dot then acc.scale * 10 else acc.scale, acc.count + 1, acc.dot), w, i + 1)
  {
  }

  lemma ScanFraction(acc: Numeral, w: Bytes, j: nat, frac: nat, places: nat)
    requires !acc.dot && frac < Pow10(places)
    requires j <= |w| && w[j..] == FractionText(frac, places)
    ensures ScanNumeral(acc, w, j)
         == Some(Numeral(Shift(acc.digits, places) + frac, Shift(acc.scale, places), acc.count + places, places > 0))
  {
    if places == 0 {
      assert j == |w|;
    } else {
      assert w[j] == '.';
      var a2 := acc.(dot := true);
      assert ScanNumeral(acc, w, j) == ScanNumeral(a2, w, j + 1);
      assert w[j + 1..j + 1 + places] == w[j..][1..] == DigitString(frac, places);
      ScanDigits(a2, w, j + 1, frac, places);
    }
  }

  /** Where the sign, the whole digits and the fraction sit in a written decimal. */
  lemma DecimalLayout(d: Decimal, w: Bytes, s: nat)
    requires w == DecimalText(d) && s == (if d.negative then 1 else 0)
    ensures s + d.wholeWidth <= |w|
    ensures d.wholeWidth > 0 || d.places > 0 ==> SignLength(w) == s
    ensures w[s..s + d.wholeWidth] == DigitString(d.whole, d.wholeWidth)
    ensures w[s + d.wholeWidth..] == FractionText(d.frac, d.places)
  {
  }

  /** The scan of a written decimal, from the digit after its sign on. */
  lemma ScanDecimal(d: Decimal, w: Bytes, s: nat)
    requires d.whole < Pow10(d.wholeWidth) && d.frac < Pow10(d.places)
    requires s + d.wholeWidth <= |w| && w[s..s + d.wholeWidth] == DigitString(d.whole, d.wholeWidth)
    requires w[s + d.wholeWidth..] == FractionText(d.frac, d.places)
    ensures ScanNumeral(Numeral(0, 1, 0, false), w, s)
         == Some(Numeral(Shift(d.whole, d.places) + d.frac, Shift(1, d.places), d.wholeWidth + d.places, d.places > 0))
  {
    var start, mid := Numeral(0, 1, 0, false), Numeral(d.whole, 1, d.wholeWidth, false);
    ScanDigits(start, w, s, d.whole, d.wholeWidth);
    ZeroShift(d.wholeWidth);
    assert ScanNumeral(start, w, s) == ScanNumeral(mid, w, s + d.wholeWidth);
    ScanFraction(mid, w, s + d.wholeWidth, d.frac, d.places);
  }

  lemma {:induction false} ZeroShift(n: nat)
    ensures Shift(0, n) == 0
  {
    if n > 0 { ZeroShift(n - 1); }
  }

  lemma CastProduct(x: int, p: int)
    ensures (x * p) as real == x as real * p as real
  {
  }

  lemma RealDivision(x: real, y: real, p: real)
    requires p > 0.0
    ensures (x * p + y) / p == x + y / p
  {
  }

  lemma RealShift(x: nat, y: nat, n: nat)
    ensures Shift(1, n) == Pow10(n)
    ensures (Shift(x, n) + y) as real / Pow10(n) as real == x as real + y as real / Pow10(n) as real
  {
    // The calls below only keep this proof cheap; Dafny can find it unaided.
    ShiftScales(x, n);
    ShiftScales(1, n);
    CastProduct(x, Pow10(n));
    RealDivision(x as real, y as real, Pow10(n) as real);
  }

  /** A decimal as written in a content stream is read back as its value. */
  lemma DecimalRoundTrip(d: Decimal)
    requires ValidDecimal(d)
    ensures ParseNumber(DecimalText(d)) == Some(DecimalValue(d))
  {
    var s := if d.negative then 1 else 0;
    DecimalLayout(d, DecimalText(d), s);
    ScanDecimal(d, DecimalText(d), s);
    RealShift(d.whole, d.frac, d.places);
  }

  /** A written decimal is a bare word: it holds no delimiter. */
  lemma DecimalIsBare(d: Decimal)
    requires ValidDecimal(d)
    ensures IsBareWord(DecimalText(d))
  {
  }

  // ---------------------------------------------------------------------
  // The scanner, one byte at a time

  /** Between tokens, inside a bare word, or inside a literal string at a
      nesting depth, with its unescaped content so far and whether the
      previous byte was an unconsumed backslash. */
  datatype Mode =
    | Idle
    | InWord(chars: Bytes)
    | InLiteral(depth: nat, content: Bytes, escaped: bool)

  datatype Scanner = Scanner(mode: Mode, tokens: seq<Token>)

  const Start := Scanner(Idle, [])

  /** What the scanner does with byte c when it is between tokens: a stray
      closing parenthesis is dropped like whitespace. */
  function Begin(tokens: seq<Token>, c: Byte): Scanner
  {
    if c == '(' then Scanner(InLiteral(0, [], false), tokens)
    else if c == '[' then Scanner(Idle, tokens + [ArrayOpen])
    else if c == ']' then Scanner(Idle, tokens + [ArrayClose])
    else if IsWhitespace(c) || c == ')' then Scanner(Idle, tokens)
    else Scanner(InWord([c]), tokens)
  }

  function Step(sc: Scanner, c: Byte): Scanner
  {
    match sc.mode
    case Idle => Begin(sc.tokens, c)
    case InWord(w) =>
      if IsDelimiter(c) then Begin(sc.tokens + [WordToken(w)], c)
      else Scanner(InWord(w + [c]), sc.tokens)
    case InLiteral(depth, s, escaped) =>
      if escaped then Scanner(InLiteral(depth, s + [c], false), sc.tokens)
      else if c == '\\' then Scanner(InLiteral(depth, s, true), sc.tokens)
      else if c == '(' then Scanner(InLiteral(depth + 1, s + [c], false), sc.tokens)
      else if c == ')' && depth == 0 then Scanner(Idle, sc.tokens + [Literal(s)])
      else if c == ')' then Scanner(InLiteral(depth - 1, s + [c], false), sc.tokens)
      else Scanner(InLiteral(depth, s + [c], false), sc.tokens)
  }

  /** The scanner after reading all of s. */
  function Feed(sc: Scanner, s: Bytes): Scanner
    decreases |s|
  {
    if s == [] then sc else Feed(Step(sc, s[0]), s[1..])
  }

  /** Tokens once emitted are never taken back: the pass does not backtrack. */
  lemma {:induction false} FeedExtends(sc: Scanner, s: Bytes)
    ensures var r := Feed(sc, s); |sc.tokens| <= |r.tokens| && r.tokens[..|sc.tokens|] == sc.tokens
    decreases |s|
  {
    if s != [] {
      var next := Step(sc, s[0]);
      assert |sc.tokens| <= |next.tokens| && next.tokens[..|sc.tokens|] == sc.tokens;
      FeedExtends(next, s[1..]);
    }
  }

  /** End of input: a pending word is emitted, and so is the content of a
      literal string that was never closed. */
  function Finish(sc: Scanner): seq<Token>
  {
    match sc.mode
    case Idle => sc.tokens
    case InWord(w) => sc.tokens + [WordToken(w)]
    case InLiteral(_, s, _) => sc.tokens + [Literal(s)]
  }

  /** The token sequence of a content stream. */
  function Tokens(content: Bytes): seq<Token>
  {
    Finish(Feed(Start, content))
  }

  /** The lexer as the extractor runs it: one loop over the bytes. */
  method Tokenize(content: Bytes) returns (tokens: seq<Token>)
    ensures tokens == Tokens(content)
  {
    var mode := Idle;
    tokens := [];
    var i := 0;
    while i < |content|
      invariant i <= |content|
      invariant Feed(Scanner(mode, tokens), content[i..]) == Feed(Start, content)
    {
      var c := content[i];
      assert content[i..][1..] == content[i + 1..];
      if mode.InWord? && IsDelimiter(c) {
        tokens := tokens + [WordToken(mode.chars)];
        mode := Idle;
      }
      match mode {
        case Idle =>
          if c == '(' {
            mode := InLiteral(0, [], false);
          } else if c == '[' {
            tokens := tokens + [ArrayOpen];
          } else if c == ']' {
            tokens := tokens + [ArrayClose];
          } else if !IsWhitespace(c) && c != ')' {
            mode := InWord([c]);
          }
        case InWord(w) =>
          mode := InWord(w + [c]);
        case InLiteral(depth, s, escaped) =>
          if escaped {
            mode := InLiteral(depth, s + [c], false);
          } else if c == '\\' {
            mode := InLiteral(depth, s, true);
          } else if c == '(' {
            mode := InLiteral(depth + 1, s + [c], false);
          } else if c == ')' && depth == 0 {
            tokens := tokens + [Literal(s)];
            mode := Idle;
          } else if c == ')' {
            mode := InLiteral(depth - 1, s + [c], false);
          } else {
            mode := InLiteral(depth, s + [c], false);
          }
      }
      i := i + 1;
    }
    match mode {
      case Idle =>
      case InWord(w) => tokens := tokens + [WordToken(w)];
      case InLiteral(_, s, _) => tokens := tokens + [Literal(s)];
    }
  }

  // ---------------------------------------------------------------------
  // Properties of the scanner

  lemma {:induction false} FeedAppend(sc: Scanner, a: Bytes, b: Bytes)
    ensures Feed(sc, a + b) == Feed(Feed(sc, a), b)
    decreases |a|
  {
    if a == [] {
      assert a + b == b;
    } else {
      assert (a + b)[0] == a[0] && (a + b)[1..] == a[1..] + b;
      FeedAppend(Step(sc, a[0]), a[1..], b);
    }
  }

  /** The escaped spelling of a string inside a literal: every parenthesis
      and every backslash is preceded by a backslash. */
  function Escape(x: Bytes): Bytes
  {
    if x == [] then []
    else (if x[0] == '(' || x[0] == ')' || x[0] == '\\' then ['\\', x[0]] else [x[0]]) + Escape(x[1..])
  }

  lemma {:induction false} EscapeAppend(x: Bytes, y: Bytes)
    ensures Escape(x + y) == Escape(x) + Escape(y)
  {
    if x == [] {
      assert x + y == y;
    } else {
      assert (x + y)[0] == x[0] && (x + y)[1..] == x[1..] + y;
      EscapeAppend(x[1..], y);
      AppendAssociative(if x[0] == '(' || x[0] == ')' || x[0] == '\\' then ['\\', x[0]] else [x[0]], Escape(x[1..]), Escape(y));
    }
  }

  /** Bytes other than the parentheses and the backslash are copied as they are. */
  lemma {:induction false} EscapePlain(x: Bytes)
    requires forall k :: 0 <= k < |x| ==> x[k] != '(' && x[k] != ')' && x[k] != '\\'
    ensures Escape(x) == x
  {
    if x != [] {
      EscapePlain(x[1..]);
      assert x == [x[0]] + x[1..];
    }
  }

  /** Inside a literal, an escaped spelling adds exactly the original bytes:
      the backslashes are consumed and no escaped parenthesis changes the
      nesting depth or ends the string. */
  lemma {:induction false} FeedEscaped(depth: nat, pre: Bytes, tokens: seq<Token>, x: Bytes)
    ensures Feed(Scanner(InLiteral(depth, pre, false), tokens), Escape(x))
         == Scanner(InLiteral(depth, pre + x, false), tokens)
    decreases |x|
  {
    var sc := Scanner(InLiteral(depth, pre, false), tokens);
    if x == [] {
      assert pre + x == pre;
    } else {
      var head := if x[0] == '(' || x[0] == ')' || x[0] == '\\' then ['\\', x[0]] else [x[0]];
      assert Escape(x) == head + Escape(x[1..]);
      FeedAppend(sc, head, Escape(x[1..]));
      assert Feed(sc, head) == Scanner(InLiteral(depth, pre + [x[0]], false), tokens) by {
        if |head| == 2 {
          var mid := Scanner(InLiteral(depth, pre, true), tokens);
          assert Step(sc, '\\') == mid;
          assert Feed(sc, head) == Feed(mid, head[1..]);
          assert head[1..] == [x[0]];
          assert Feed(mid, [x[0]]) == Feed(Step(mid, x[0]), []);
        } else {
          assert Feed(sc, head) == Feed(Step(sc, x[0]), []);
        }
      }
      FeedEscaped(depth, pre + [x[0]], tokens, x[1..]);
      assert pre + [x[0]] + x[1..] == pre + x;
    }
  }

  /** A literal string written with escapes reads back as exactly its content. */
  lemma LiteralRoundTrip(tokens: seq<Token>, x: Bytes)
    ensures Feed(Scanner(Idle, tokens), ['('] + Escape(x) + [')']) == Scanner(Idle, tokens + [Literal(x)])
  {
    var sc := Scanner(Idle, tokens);
    FeedAppend(sc, ['('] + Escape(x), [')']);
    FeedAppend(sc, ['('], Escape(x));
    assert Feed(sc, ['(']) == Scanner(InLiteral(0, [], false), tokens);
    FeedEscaped(0, [], tokens, x);
    assert [] + x == x;
  }

  /** Nesting: unescaped parentheses inside a literal balance from the given depth. */
  predicate BalancedFrom(depth: nat, x: Bytes)
    decreases |x|
  {
    if x == [] then depth == 0
    else if x[0] == '\\' then false
    else if x[0] == '(' then BalancedFrom(depth + 1, x[1..])
    else if x[0] == ')' then depth > 0 && BalancedFrom(depth - 1, x[1..])
    else BalancedFrom(depth, x[1..])
  }

  lemma {:induction false} FeedBalanced(depth: nat, pre: Bytes, tokens: seq<Token>, x: Bytes)
    requires BalancedFrom(depth, x)
    ensures Feed(Scanner(InLiteral(depth, pre, false), tokens), x)
         == Scanner(InLiteral(0, pre + x, false), tokens)
    decreases |x|
  {
    if x == [] {
      assert pre + x == pre;
    } else {
      var d: nat := if x[0] == '(' then depth + 1 else if x[0] == ')' then depth - 1 else depth;
      assert Step(Scanner(InLiteral(depth, pre, false), tokens), x[0]) == Scanner(InLiteral(d, pre + [x[0]], false), tokens);
      FeedBalanced(d, pre + [x[0]], tokens, x[1..]);
      assert pre + [x[0]] + x[1..] == pre + x;
    }
  }

  /** A literal whose inner parentheses are balanced keeps them verbatim and
      ends only at its matching closing parenthesis. */
  lemma NestedLiteral(tokens: seq<Token>, x: Bytes)
    requires BalancedFrom(0, x)
    ensures Feed(Scanner(Idle, tokens), ['('] + x + [')']) == Scanner(Idle, tokens + [Literal(x)])
  {
    var sc := Scanner(Idle, tokens);
    FeedAppend(sc, ['('] + x, [')']);
    FeedAppend(sc, ['('], x);
    assert Feed(sc, ['(']) == Scanner(InLiteral(0, [], false), tokens);
    FeedBalanced(0, [], tokens, x);
    assert [] + x == x;
  }

  // ---------------------------------------------------------------------
  // Streams written lexeme by lexeme

  /** A lexeme as written in a content stream, with the whitespace after it. */
  datatype Lexeme = Word(text: Bytes) | Numeric(number: Decimal) | Quoted(text: Bytes) | Open | Close

  /** A lexeme the scanner reads as a bare word. */
  predicate IsBare(x: Lexeme)
  {
    x.Word? || x.Numeric?
  }

  /** A lexeme that can be written as one: a word with no delimiter in it,
      or a decimal whose digits fit its widths. */
  predicate Writable(x: Lexeme)
  {
    (x.Word? ==> IsBareWord(x.text)) && (x.Numeric? ==> ValidDecimal(x.number))
  }

  datatype Spaced = Spaced(lexeme: Lexeme, gap: Bytes)

  function Spell(x: Lexeme): Bytes
  {
    match x
    case Word(w) => w
    case Numeric(d) => DecimalText(d)
    case Quoted(t) => ['('] + Escape(t) + [')']
    case Open => ['[']
    case Close => [']']
  }

  function Render(ps: seq<Spaced>): Bytes
  {
    if ps == [] then [] else Spell(ps[0].lexeme) + ps[0].gap + Render(ps[1..])
  }

  function TokenOf(x: Lexeme): Token
  {
    match x
    case Word(w) => WordToken(w)
    case Numeric(d) => Number(DecimalValue(d))
    case Quoted(t) => Literal(t)
    case Open => ArrayOpen
    case Close => ArrayClose
  }

  function TokensOf(ps: seq<Spaced>): seq<Token>
  {
    if ps == [] then [] else [TokenOf(ps[0].lexeme)] + TokensOf(ps[1..])
  }

  lemma {:induction false} TokensOfAppend(ps: seq<Spaced>, qs: seq<Spaced>)
    ensures TokensOf(ps + qs) == TokensOf(ps) + TokensOf(qs)
  {
    if ps == [] {
      assert ps + qs == qs;
    } else {
      assert (ps + qs)[1..] == ps[1..] + qs;
      TokensOfAppend(ps[1..], qs);
    }
  }

  predicate IsBareWord(w: Bytes)
  {
    w != [] && forall k :: 0 <= k < |w| ==> !IsDelimiter(w[k])
  }

  predicate IsGap(g: Bytes)
  {
    forall k :: 0 <= k < |g| ==> IsWhitespace(g[k])
  }

  /** Every gap is whitespace, every lexeme is writable, and a bare word is
      followed by whitespace unless the next lexeme starts with a delimiter. */
  predicate WellSpaced(ps: seq<Spaced>)
  {
    ps == [] ||
    (IsGap(ps[0].gap)
     && Writable(ps[0].lexeme)
     && (IsBare(ps[0].lexeme) && ps[0].gap == [] && |ps| > 1 ==> !IsBare(ps[1].lexeme))
     && WellSpaced(ps[1..]))
  }

  /** Two well-spaced streams can be written one after the other: the first
      does not end in a bare word run up against a bare word. */
  predicate Joinable(xs: seq<Spaced>, ys: seq<Spaced>)
  {
    xs == [] || ys == [] || !IsBare(xs[|xs| - 1].lexeme) || xs[|xs| - 1].gap != [] || !IsBare(ys[0].lexeme)
  }

  lemma {:induction false} WellSpacedAppend(xs: seq<Spaced>, ys: seq<Spaced>)
    requires WellSpaced(xs) && WellSpaced(ys) && Joinable(xs, ys)
    ensures WellSpaced(xs + ys)
    decreases |xs|
  {
    if xs == [] {
      assert xs + ys == ys;
    } else {
      assert (xs + ys)[0] == xs[0] && (xs + ys)[1..] == xs[1..] + ys;
      if |xs| == 1 {
        assert xs[1..] + ys == ys;
        if ys != [] {
          assert (xs + ys)[1] == ys[0];
        }
      } else {
        assert (xs + ys)[1] == xs[1];
        WellSpacedAppend(xs[1..], ys);
      }
    }
  }

  /** The tokens a scanner between lexemes has produced, counting a word it
      is still reading. */
  function Settle(sc: Scanner): Scanner
  {
    match sc.mode
    case InWord(w) => Scanner(Idle, sc.tokens + [WordToken(w)])
    case _ => sc
  }

  lemma {:induction false} FeedGap(sc: Scanner, g: Bytes)
    requires IsGap(g) && (sc.mode.Idle? || (sc.mode.InWord? && g != []))
    ensures Feed(sc, g) == Settle(sc)
    decreases |g|
  {
    if g != [] {
      assert IsGap(g[1..]) by {
        forall k | 0 <= k < |g[1..]| ensures IsWhitespace(g[1..][k]) {
          assert g[1..][k] == g[k + 1];
        }
      }
      FeedGap(Step(sc, g[0]), g[1..]);
    }
  }

  lemma {:induction false} FeedWord(tokens: seq<Token>, pre: Bytes, w: Bytes)
    requires forall k :: 0 <= k < |w| ==> !IsDelimiter(w[k])
    ensures Feed(Scanner(InWord(pre), tokens), w) == Scanner(InWord(pre + w), tokens)
    decreases |w|
  {
    if w == [] {
      assert pre + w == pre;
    } else {
      FeedWord(tokens, pre + [w[0]], w[1..]);
      assert pre + [w[0]] + w[1..] == pre + w;
    }
  }

  lemma FeedBareWord(sc: Scanner, w: Bytes)
    requires sc.mode.Idle? && IsBareWord(w)
    ensures Feed(sc, w) == Scanner(InWord(w), sc.tokens)
  {
    assert Step(sc, w[0]) == Scanner(InWord([w[0]]), sc.tokens);
    FeedWord(sc.tokens, [w[0]], w[1..]);
    assert [w[0]] + w[1..] == w;
  }

  lemma FeedSpell(sc: Scanner, x: Lexeme)
    requires sc.mode.Idle? || (sc.mode.InWord? && !IsBare(x))
    requires Writable(x)
    ensures IsBare(x) ==> Feed(sc, Spell(x)) == Scanner(InWord(Spell(x)), sc.tokens) && WordToken(Spell(x)) == TokenOf(x)
    ensures !IsBare(x) ==> Feed(sc, Spell(x)) == Scanner(Idle, Settle(sc).tokens + [TokenOf(x)])
  {
    match x
    case Word(w) =>
      FeedBareWord(sc, w);
    case Numeric(d) =>
      DecimalIsBare(d);
      FeedBareWord(sc, DecimalText(d));
      DecimalRoundTrip(d);
    case Quoted(t) =>
      var open := Scanner(InLiteral(0, [], false), Settle(sc).tokens);
      FeedAppend(sc, ['('] + Escape(t), [')']);
      FeedAppend(sc, ['('], Escape(t));
      assert Feed(sc, ['(']) == open;
      FeedEscaped(0, [], Settle(sc).tokens, t);
      assert [] + t == t;
    case Open =>
      assert Feed(sc, ['[']) == Step(sc, '[');
    case Close =>
      assert Feed(sc, [']']) == Step(sc, ']');
  }

  lemma FeedPiece(sc: Scanner, p: Spaced)
    requires IsGap(p.gap) && Writable(p.lexeme)
    requires sc.mode.Idle? || (sc.mode.InWord? && !IsBare(p.lexeme))
    ensures var r := Feed(sc, Spell(p.lexeme) + p.gap);
      && (r.mode.Idle? || (r.mode.InWord? && IsBare(p.lexeme) && p.gap == []))
      && Settle(r) == Scanner(Idle, Settle(sc).tokens + [TokenOf(p.lexeme)])
  {
    FeedAppend(sc, Spell(p.lexeme), p.gap);
    FeedSpell(sc, p.lexeme);
    var s1 := Feed(sc, Spell(p.lexeme));
    if IsBare(p.lexeme) && p.gap == [] {
      assert Feed(s1, p.gap) == s1;
    } else {
      FeedGap(s1, p.gap);
    }
  }

  lemma {:induction false} FeedRender(sc: Scanner, ps: seq<Spaced>)
    requires WellSpaced(ps)
    requires sc.mode.Idle? || (sc.mode.InWord? && (ps == [] || !IsBare(ps[0].lexeme)))
    ensures !Feed(sc, Render(ps)).mode.InLiteral?
    ensures Settle(Feed(sc, Render(ps))) == Scanner(Idle, Settle(sc).tokens + TokensOf(ps))
    decreases |ps|
  {
    if ps == [] {
      assert Settle(sc).tokens + [] == Settle(sc).tokens;
    } else {
      var p := ps[0];
      var rest := ps[1..];
      assert IsGap(p.gap) && Writable(p.lexeme) && WellSpaced(rest);
      assert IsBare(p.lexeme) && p.gap == [] && rest != [] ==> !IsBare(rest[0].lexeme);
      var text := Spell(p.lexeme) + p.gap;
      assert Render(ps) == text + Render(rest);
      FeedAppend(sc, text, Render(rest));
      FeedPiece(sc, p);
      var r := Feed(sc, text);
      FeedRender(r, rest);
      assert TokensOf(ps) == [TokenOf(p.lexeme)] + TokensOf(rest);
      AppendAssociative(Settle(sc).tokens, [TokenOf(p.lexeme)], TokensOf(rest));
    }
  }

  /** A stream written as well-spaced lexemes tokenizes to exactly their
      tokens, in order: no token is lost, split or merged. */
  lemma RenderTokens(ps: seq<Spaced>)
    requires WellSpaced(ps)
    ensures Tokens(Render(ps)) == TokensOf(ps)
  {
    FeedRender(Start, ps);
    assert [] + TokensOf(ps) == TokensOf(ps);
  }
}
