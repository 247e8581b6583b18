# Text extraction from PDF content streams, modelled in Dafny

This project models the text extractor of package `parser` in the municipal
court statistics scraper. The extractor has two entry points:

- `ExtractTextItems(PageData)` reads the bytes of a page's content stream. It
  returns the text runs in stream order. An empty item (a *break marker*) comes
  before every later run whose line differs from the previous run's.
- `groupIntoLines(items)` splits that item sequence at the markers. The result
  is a list of non-empty line groups.

The model has four parts, following the pipeline:

- **Lexer** (`lexer.dfy`): content bytes become numbers, operator names, `[`,
  `]` and literal strings. Literal strings may nest balanced parentheses, and a
  backslash makes the next byte literal. This is a simplification of the
  escapes of section 7.3.4.2 of ISO 32000-1.
  `Lexer.Tokens` is the specification function. `Lexer.Tokenize` is the
  byte-by-byte loop, and it is proved to compute `Tokens`.
- **Text-position state** (`positioning.dfy`):
  - The text matrix `[a b c d e f]` and the moves of Td/TD (section 9.4.2 of
    ISO 32000-1).
  - The line coordinate `e·(−b) + f·a`.
  - The run emitter. It joins strings across kerning numbers with |n| ≤ 500
    and splits runs at larger ones. Before a run whose line coordinate differs
    from the previous run's by more than the tolerance, it inserts a marker.
  - `Positioning.TextState` is the mutable state record, written as a class.
    `Positioning.State` with `Emit`/`Show` is its value-level specification.
- **Dispatcher** (`extractor.dfy`): operands are buffered until an operator
  arrives, the operator is applied, and the buffer is cleared.
  - `Tm` sets the matrix.
  - `Td`/`TD` translate it.
  - `Tj`/`TJ` show text.
  - `BT`, `ET` and every other operator leave the state as it is.
  - `Extractor.ExtractTextItems` is the imperative single pass over the
    tokens. It is proved equal to the functional `Extractor.Extract`.
- **Line grouper** (`lines.dfy`): `Lines.GroupIntoLines` is a pure recursive
  partition on markers. It is proved to be the inverse of joining groups with
  markers.

`base.dfy` holds shared helpers: bytes, markers and the filter `NonEmpty`.

`streams.dfy` writes a content stream from a list of commands (a `Script`).
It proves, for every script meeting simple spelling rules, that extracting the
written bytes equals running the commands one by one.

`scenarios.dfy` uses this to restate each of the source's test streams. It
proves the items and groups that each test expects of the streams. Each lemma
requires only the range of tolerances its stream needs.

## Model

| member | source | states |
|---|---|---|
| Base.NonEmpty | parser/content_test.go:16-22 | The tests' filter: it keeps the non-marker items, each non-empty and no more of them than the items. `NonEmptyAppend` states that it distributes over concatenation, and `NonEmptyOfRuns` that it leaves a marker-free sequence unchanged. |
| Lexer.Tokens | parser/content_test.go:10-14 | The token sequence of a content stream. It is specified by `Tokenize` (the loop computes it), `FeedAppend`, `FeedExtends`, `LiteralRoundTrip`, `NestedLiteral` and `RenderTokens`. |
| Lexer.Step | parser/content_test.go:10-12 | One byte of the scanner. Its escape and nesting rules are stated by `FeedEscaped`, `LiteralRoundTrip` and `NestedLiteral`; `FeedExtends` states that a step never takes back a token. |
| Lexer.Finish | parser/content_test.go:12 | End of input emits the pending word or literal. `RenderTokens` relies on it for the last lexeme of a stream. |
| Lexer.ParseNumber | parser/content_test.go:11 | A word read as a number. `ParseNumberMatchesGrammar` characterises when it succeeds and `DecimalRoundTrip` gives its value. |
| Lexer.Tokenize | parser/content_test.go:10-14 | The lexing loop over the content bytes returns exactly the token sequence `Tokens(content)`. |
| Lexer.FeedAppend | parser/content_test.go:10-14 | Lexing is one left-to-right pass: lexing `a + b` equals lexing `a` and then continuing with `b`. |
| Lexer.FeedExtends | parser/content_test.go:10-14 | The pass never takes back a token: lexing more input only extends the tokens already emitted. |
| Lexer.ParseNumberMatchesGrammar | parser/content_test.go:11 | A word is read as a number exactly when it has an optional sign, digits with at most one point, and at least one digit. |
| Lexer.ScanNumeralAccepts | parser/content_test.go:116-122 | The digit scanner accepts exactly the words made of digits and at most one point, and it counts whether a digit was seen. |
| Lexer.DecimalRoundTrip | parser/content_test.go:116-122 | Any decimal written as in the streams (`-4704.6`, `.0118`, `101.52`) is read back as its exact value. |
| Lexer.DecimalIsBare | parser/content_test.go:116-122 | A written decimal holds no whitespace or delimiter, so it lexes as one word. |
| Lexer.EscapeAppend | parser/content_test.go:313-316 | Escaping distributes over concatenation. |
| Lexer.EscapePlain | parser/content_test.go:313-316 | Text without parentheses or backslashes needs no escaping. |
| Lexer.FeedEscaped | parser/content_test.go:313-316 | Inside a literal, the escaped form of any text adds exactly that text, and the string is not closed. |
| Lexer.LiteralRoundTrip | parser/content_test.go:313-333 | `(` + escape(x) + `)` lexes to the single literal x, whatever x holds. Escaped parentheses become plain ones and the backslashes are dropped. |
| Lexer.NestedLiteral | parser/content_test.go:313-333 | A literal whose parentheses are balanced needs no escapes: it lexes to one literal holding the inner parentheses. |
| Lexer.RenderTokens | parser/content_test.go:10-12 | Lexemes joined with the whitespace a stream uses lex back to their tokens. |
| Positioning.LineCoordinate | parser/content_test.go:153-157 | The coordinate across the baseline, `e·(−b) + f·a`. `AxisAlignedLines` and `TranslateMovesLine` state what it is for upright, quarter-turned and moved text. |
| Positioning.Emit | parser/content_test.go:57-88 | One run through the marker rule of `BreaksLine`. `EmitKeepsText`, `EmitConsistent`, `EmitAllSameLine` and `TextState.EmitRun` specify it. |
| Positioning.ShowFrom | parser/content_test.go:7-33 | The runs of a TJ array emitted one by one. `ShowFromEmitsRuns` states it is exactly the emission of `RunsFrom`. |
| Positioning.Show | parser/content_test.go:11 | Showing an element list. `ShowFromEmitsRuns`, `ShowConsistent` and `TextState.ShowText` specify it. |
| Positioning.AxisAlignedLines | parser/content_test.go:153-157 | For upright text (a = 1, b = 0) the line coordinate is f. For quarter-turned text (a = 0) it is −b·e, so equal e means the same line. |
| Positioning.Translate | parser/content_test.go:116-121 | A Td/TD move leaves the basis a, b, c, d unchanged. |
| Positioning.TranslateMovesLine | parser/content_test.go:57-62 | A move shifts the line coordinate by ty times the basis determinant, so a move along the baseline never changes the line. |
| Positioning.RunsFrom | parser/content_test.go:7-33 | The runs cut from a TJ array are all non-empty. |
| Positioning.RunsKeepText | parser/content_test.go:7-33 | The runs of a TJ array, laid end to end, are exactly its strings in order: kerning drops nothing and reorders nothing. |
| Positioning.SmallKerningJoins | parser/content_test.go:90-111 | When no kerning number exceeds 500 in magnitude, the whole array is one run: its strings concatenated, or no run if that is empty. |
| Positioning.LargeKerningSplits | parser/content_test.go:7-33 | A kerning with magnitude above 500 ends the current run. What follows it is split independently. |
| Positioning.SmallKerningInvisible | parser/content_test.go:7-9 | A kerning with magnitude at most 500, including 0, leaves the runs as if it were absent. |
| Positioning.ShowFromEmitsRuns | parser/content_test.go:122-123 | Showing an array emits exactly its runs, one after another, each through the marker rule. |
| Positioning.EmitAllSameLine | parser/content_test.go:122-123 | All runs of one TJ share the matrix: at most one marker, before the first run. After the call the last coordinate is the matrix's. |
| Positioning.EmitKeepsText | parser/content_test.go:16-22 | Emitting a run adds exactly that run to the non-marker items. |
| Positioning.EmitConsistent | parser/content_test.go:57-88 | Emitting keeps the state consistent: items are non-empty runs or markers followed by a run, and when there are runs the last coordinate is recorded. |
| Positioning.ShowConsistent | parser/content_test.go:57-88 | Showing any element list keeps the state consistent. |
| Positioning.TextState.constructor | parser/content_test.go:14 | A fresh state has the identity matrix, no previous coordinate and no items. |
| Positioning.TextState.SetTextMatrix | parser/content_test.go:159 | Tm replaces the matrix, and nothing else changes. |
| Positioning.TextState.MoveTextPosition | parser/content_test.go:60 | Td/TD translate the matrix within its basis, and nothing else changes. |
| Positioning.TextState.EmitRun | parser/content_test.go:57-88 | Appends the run, preceded by a marker exactly when there was an earlier run and the coordinate moved by more than the tolerance; records the coordinate. |
| Positioning.TextState.ShowText | parser/content_test.go:11 | The state after Tj/TJ is the specification `Show` of the elements. |
| Extractor.Apply | parser/content_test.go:159-170 | One operator applied to its operands. `ApplyFrame`, `ApplyKeepsText` and `Perform` specify it. |
| Extractor.Dispatch | parser/content_test.go:10-12 | One token: an operator is applied and the buffer cleared, anything else is buffered. `ExecuteSetMatrix`, `ExecuteMove`, `ExecuteShowString`, `ExecuteShowArray` and `ExecuteIgnored` state its effect on each kind of command. |
| Extractor.Execute | parser/content_test.go:113-151 | All tokens in order. `ExecuteKeepsText` and `ExecuteConsistent` specify it. |
| Extractor.Extract | parser/content_test.go:14 | The item sequence of a content stream. `ExtractTextItems` computes it, and `ExtractedText`, `ToleranceKeepsText` and `ExtractSeparated` specify it. |
| Extractor.Numbers | parser/content_test.go:122 | The operands are all numbers exactly when a value list is returned, and then it lists their values in order. |
| Extractor.LastNumbers | parser/content_test.go:122 | When present, the operator's numeric operands are exactly as many as the operator takes. |
| Extractor.ApplyFrame | parser/content_test.go:262-271 | BT, ET and every unrecognised operator (`q`, `i`, `re`, `W`, `n`, `Q`) leave the whole state unchanged. Positioning operators never touch the items. Show operators never touch the matrix. |
| Extractor.ApplyKeepsText | parser/content_test.go:16-22 | The non-marker items grow by exactly the runs the operator shows from its operands. |
| Extractor.ExecuteKeepsText | parser/content_test.go:113-151 | Over any token sequence, the non-marker items are the runs of the show operators in stream order, independent of positions. |
| Extractor.ExtractedText | parser/content_test.go:113-151 | The non-marker items of a stream depend only on its tokens, never on matrices. |
| Extractor.ToleranceKeepsText | parser/content_test.go:16-22 | The tolerance changes only where markers go, never the runs. |
| Extractor.ExecuteConsistent | parser/content_test.go:57-88 | Any token sequence keeps the text state consistent. |
| Extractor.ExtractSeparated | parser/content_test.go:66-79 | In every extracted item sequence each marker is immediately followed by a text run: no two markers in a row and none at the end. |
| Extractor.ExecuteSetMatrix | parser/content_test.go:159 | Six numbers then `Tm` set the matrix to exactly those six numbers and clear the buffer. |
| Extractor.ExecuteMove | parser/content_test.go:60 | Two numbers then `Td` or `TD` translate the matrix by them and clear the buffer. |
| Extractor.ExecuteShowString | parser/content_test.go:37 | A literal then `Tj` shows that string on the current matrix. |
| Extractor.ExecuteShowArray | parser/content_test.go:11 | `[`, strings and numbers, `]` then `TJ` show exactly those elements, kerning included. |
| Extractor.ExecuteIgnored | parser/content_test.go:263-266 | Numbers then BT, ET or an unrecognised operator leave the state unchanged and clear the buffer. |
| Extractor.Perform | parser/content_test.go:159-170 | One operator applied to the mutable state gives the specification `Apply` of the operator to the old state. |
| Extractor.ExtractTextItems | parser/content_test.go:14 | The extraction loop returns exactly `Extract(content, tol)`. Its markers are each followed by a run. |
| Streams.RunScriptKeepsText | parser/content_test.go:113-151 | Running commands adds exactly their shown runs to the non-marker items, whatever the matrices and tolerance. |
| Streams.ScriptWellSpaced | parser/content_test.go:10-12 | A script whose numbers and names are well formed is written with enough whitespace to lex back piece by piece. |
| Streams.ScriptExecute | parser/content_test.go:10-14 | Dispatching the tokens of a written script is the same as running its commands one after another. |
| Streams.WrittenExtract | parser/content_test.go:10-14 | Extracting the bytes of a written script gives the items of running its commands from the initial state. |
| Streams.WrittenText | parser/content_test.go:16-22 | The non-marker items extracted from a written script are its commands' runs. |
| Lines.GroupIntoLines | parser/content_test.go:199-212 | The partition of items into line groups at the markers. `GroupsWellFormed`, `GroupsKeepItems`, `GroupsSplitAtMarker` and `GroupJoinRoundTrip` specify it. |
| Lines.GroupsWellFormed | parser/content_test.go:199-212 | Every line group is non-empty and holds no marker. |
| Lines.GroupsKeepItems | parser/content_test.go:278 | The groups laid end to end are exactly the non-marker items, in order. |
| Lines.GroupsSplitAtMarker | parser/content_test.go:199-200 | A marker always ends a group: what comes before and after it is grouped independently. |
| Lines.OneLine | parser/content_test.go:209 | Items with no marker between them form exactly one group. |
| Lines.MarkersAroundIgnored | parser/content_test.go:66-77 | A leading or trailing marker changes no group, so the grouping does not depend on whether a leading marker is emitted. |
| Lines.GroupJoinRoundTrip | parser/content_test.go:278 | Grouping inverts joining: well-formed groups joined with single markers group back to themselves. |
| Lines.GroupingIdempotent | parser/content_test.go:278 | Regrouping the rejoined groups reproduces the same partition. |
| Lines.JoinKeepsItems | parser/content_test.go:278 | Joining groups with markers keeps their items, in order. |
| Scenarios.SingleTj | parser/content_test.go:35-55 | `BT (Hello World)Tj ET` yields exactly one non-marker item, "Hello World", for every tolerance. |
| Scenarios.SplitInTwo | parser/content_test.go:7-33 | Two joinable stretches around one large kerning give two runs, one per stretch. |
| Scenarios.KerningSplitsRuns | parser/content_test.go:7-33 | `[(8)0(8)-4704.6(2)0(3)]TJ` yields exactly "88", "23". |
| Scenarios.SmallKerningJoinsRuns | parser/content_test.go:90-111 | `[(H)-50(e)-30(l)(l)(o)]TJ` yields exactly "Hello". |
| Scenarios.ParenthesizedSpelling | parser/content_test.go:315 | A string with one pair of outer parentheses is written with both of them escaped. |
| Scenarios.EscapedParens | parser/content_test.go:313-333 | `(\(moving\))Tj` yields exactly "(moving)". |
| Scenarios.ThreeRuns | parser/content_test.go:122-123 | Three strings split by two large kernings give three runs in order. |
| Scenarios.MixedTjAndTJ | parser/content_test.go:113-151 | The mixed Tj/TD/Tm/TJ stream yields exactly its seven runs in order, for every tolerance. |
| Scenarios.TwoLines | parser/content_test.go:66-88 | Two runs with one marker between them: both are present, a marker at index > 0 lies after the first and before the second, and they group as two lines. |
| Scenarios.TDLineBreak | parser/content_test.go:57-88 | Under the identity matrix, `0 -12 TD` between two Tj puts a marker between "Line1" and "Line2" for any tolerance below 12; they form two groups. |
| Scenarios.TmSameLine | parser/content_test.go:153-213 | With upright Tm matrices the six runs come out in order. "Union Cit" and "y" (same f) share a group; each change of f by 15 starts a new group, for any tolerance below 15. |
| Scenarios.RotatedGroups | parser/content_test.go:215-248 | With quarter-turned matrices, runs with equal e share a group regardless of f: the groups are [MUNICIPAL…, JULY…], [HUDSON], [Union Cit, y], [Next Line]. |
| Scenarios.ClippedAcrossBlocks | parser/content_test.go:250-310 | The position accumulated by two TD steps survives `ET q … W n BT`. "C" rejoins "ATLANTI" and "BRIGANTINE" forms the next group, for tolerances between 0.003672 and 134.638164. |
| Scenarios.AllTests | parser/content_test.go:7-333 | One tolerance passes every test: for any tol from 0.003672 up to 12, all nine test streams give the outcomes their tests expect. |

## Left out

- PDF container parsing, stream decompression and every `PageData` field other than `Content`: the model starts from the content bytes.
- Where the package's tests do not fix the behaviour, the model makes the choices listed below.
- IEEE double arithmetic: numbers, matrices and coordinates are exact `real`s. Rounding in the Go code is not modelled.
- The exact tolerance: it is a parameter `tol` of the extractor. Each scenario requires only the range its stream needs.
- Whether a marker is emitted before the first run: the model emits a marker only when an earlier run exists. The headline scenario lemmas and `Lines.MarkersAroundIgnored` state nothing that depends on this. The helper lemmas that give exact item sequences (`Scenarios.MovedOf`, `Scenarios.ClippedItems`, …) describe this model's choice.
- Octal and named escapes, `\n`-style escapes and line continuations in literal strings: a backslash copies the next byte verbatim. Hexadecimal strings `<…>` and the `'` and `"` operators are not modelled either.
- A stray `)` outside a literal string is dropped like whitespace (`Lexer.Begin`).
- An unterminated literal string is still emitted, with the content read so far, at end of input (`Lexer.Finish`).
- `%` comments are not recognised, and `<`, `>`, `{`, `}` and `/` are not delimiters, so `/F1` and `<48>Tj` each lex as one operator word (`Lexer.IsDelimiter`). Any word that is not a number is an operator name.
- `Tm` and `Td`/`TD` use the last six or two buffered operands and do nothing unless all of them are numbers. `Tj` and `TJ` use only the last operand, and do nothing unless it is a string or an array (`Extractor.Apply`).
- A `[` inside an array restarts the capture, dropping the elements captured so far, and a `]` with no array open is ignored (`Extractor.Push`).
- An operator inside an array throws the capture away, like every other buffered operand (`Extractor.Dispatch`).
- Numbers with a leading `+` sign: the number grammar has only an optional `-`.
- Font metrics, font-size scaling of kerning and Unicode decoding: bytes are copied as they are.
- The graphics-state stack (`q`/`Q`/`cm`) and clipping geometry: those operators are absorbed with no effect, like every unrecognised operator.
- The leading recorded by `TD`: it never affects the output, so `TD` is modelled exactly as `Td`.
- Scenario streams are built as command scripts and written to bytes by `Streams.Written`. For each of the nine test streams the written bytes are the test's bytes exactly, layout and spacing included. No lemma states this byte equality; the lemmas start from the scripts.
- Positioning.Translate: its own contract states only that the basis is unchanged. The line-coordinate effect is the separate lemma `Positioning.TranslateMovesLine`.
- Extractor.LastNumbers: its contract states only the count of values it returns. Which operands they are is stated by `Extractor.Numbers` and used in `Extractor.LastNumbersOfNumbers`.
- The Go test harness (`t.Fatalf`, `t.Logf`) and the tests' own filtering loops: the filter is the function `Base.NonEmpty`.
