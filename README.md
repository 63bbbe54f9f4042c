# golines line-length engine in Dafny

This project models the engine golines uses to shorten long lines in Go source. It has five
cooperating parts.

- **Marker comments** (module `Annotation`). Each long line is tagged with a sentinel comment
  `//golines:shorten:<width>`. The module creates and parses these comments. It also decides
  whether a syntax node carries one, either in its own comments or through a fixed set of its
  children.
- **Line scanner, annotator and marker stripper** (module `Lines`). This covers:
  - the tab-expanded width of a line;
  - the per-round pass that inserts, renews or drops markers and counts the lines left to
    shorten;
  - the filter that removes every marker at the end.
- **Tree rewriter** (modules `Syntax`, `Format`, `FormatProps`, `FormatRules`, `Rewriter`).
  A walk over the parsed file threads a `force` and an `isChain` flag. It writes only the
  `Before`/`After` line-break decorations of the nodes it visits.
  - `Format` states the walk as functions over a decoration table (`TreeState`, keyed by node
    identity).
  - `Rewriter.ParsedFile` is the in-place walk: a class whose methods update that table. Each
    method is proved to leave it exactly as the matching `Format` function says.
  - `FormatProps` and `FormatRules` prove what the walk does and what it leaves alone.
- **Comment reflow** (module `Comments`). Runs of over-long `//` comment lines are repacked
  greedily into lines within the width budget.
- **The convergence loop of `Process`** (module `Shortener`). Each round annotates, stops or
  parses, rewrites and prints. The loop is capped at `maxRounds` = 20 extra rounds. Markers
  are then stripped, comments reflowed and the source formatted once more.
  - The parser, the printer, `format.Source` and `tags.HasMultipleTags` are parameters of the
    model: the fields of a `Toolchain` value.
  - Both the loop and `Process` are methods. Each is proved equal to a function
    (`Rounds`, `Shorten`), and the stop rule and round cap are proved about those functions.

The modules `Text` (the Go `strings`/`strconv` operations the core calls, stated over
`seq<char>`) and `Settings` (the `Config` record, `NewDefaultConfig` and `maxRounds`) support
the others.

Strings are sequences of runes. `lineLen` counts runes, as the source does. The reflow's
`len(word)` counts UTF-8 bytes: it is modelled by `Text.ByteLen`, so no ASCII assumption is
needed.

Two behaviours of the code are easy to misread, and the model keeps both as written.
- A marker whose line is still too long but did not get shorter is left in place and is
  **not** counted as work left: shorten/shortener.go:213-217 only counts a renewed marker.
- The walk visits only the bodies of `for`, `range`, `select` and `switch` statements, never
  their headers (shorten/format.go:126-127, 140-141, 148-152). The `else` branch of an `if` is
  not walked at all (shorten/format.go:132-138).

## Model

| member | source | states |
|---|---|---|
| Annotation.Create | shortener/internal/annotation/annotation.go:12-17 | every created marker is recognised as a marker |
| Annotation.Parse | shortener/internal/annotation/annotation.go:84-97 | a line that yields a width other than -1 is a marker |
| Annotation.ParseReadsPayload | shortener/internal/annotation/annotation.go:84-97 | on a marker, Parse is the strconv.Atoi value of the text after the second colon, and -1 when that text is not an integer |
| Annotation.MarkerFields | shortener/internal/annotation/annotation.go:89 | SplitN(line, ":", 3) of a marker has three parts, the third being the text after the prefix |
| Annotation.SplitMarker | shortener/internal/annotation/annotation.go:89 | the prefix holds exactly two colons, so the split isolates everything after it |
| Annotation.ParseCreate | shortener/internal/annotation/annotation.go:15-97 | round trip: Parse(Create(n)) == n for every 64-bit n |
| Annotation.OnlyLastCommentCounts | shortener/internal/annotation/annotation.go:99-103 | a decoration list is marked iff its last comment is a marker, so a marker followed by an ordinary comment no longer counts |
| Annotation.HasRecursive | shortener/internal/annotation/annotation.go:41-44 | a node marked itself is marked recursively |
| Annotation.HasRecursiveOtherKinds | shortener/internal/annotation/annotation.go:46-79 | every kind outside FuncDecl, Field, SelectorExpr, CallExpr and InterfaceType is recursively marked exactly when it is marked itself |
| Lines.WidthCounts | shorten/shortener.go:314-326 | the width is tabLen times the number of tabs plus the number of other runes |
| Lines.WidthConcat | shorten/shortener.go:314-326 | the width is additive over concatenation |
| Lines.LineLen | shorten/shortener.go:314-326 | the counting loop returns the tab-expanded width |
| Lines.MarkerIsComment | shorten/shortener.go:218 | every marker is a line comment, so the annotator never puts a marker in front of a marker |
| Lines.Step | shorten/shortener.go:206-228 | after each line, that line is the last one written and prevLen is what Parse reads from it |
| Lines.Annotate | shorten/shortener.go:200-231 | no input gives no output, a zero count and prevLen -1; otherwise the last input line is the last output line |
| Lines.AnnotateLongLines | shorten/shortener.go:200-231 | the loop returns the annotated lines and count of the scan Annotate |
| Lines.MarkerStep | shorten/shortener.go:209-227 | after a marker, the marker is dropped if the line fits, renewed with the new width (count +1) if the line got shorter but is still too long, and kept unchanged (count unchanged) otherwise |
| Lines.StepAfterNoMarker | shorten/shortener.go:218-227 | with no marker before it, a long non-comment line gets exactly one new marker Create(width) just before it and the count rises by 1; any other line is appended alone |
| Lines.AnnotateLast | shorten/shortener.go:206-228 | the scan of k lines is one step on the scan of k-1 lines, whose last line and prevLen come from line k-2 |
| Lines.AnnotatePrefix | shorten/shortener.go:206-230 | after k lines the output is the reference emission of the first k-1 lines, then the marker added for line k-1, then line k-1 itself, and the count matches |
| Lines.StepAfterMarker | shorten/shortener.go:209-217 | the reference emission agrees with the scan one line after a marker |
| Lines.StepAfterCode | shorten/shortener.go:218-224 | the reference emission agrees with the scan one line after a line that is not a marker |
| Lines.SettledAfterMarker | shorten/shortener.go:209-217 | what becomes of a marker line (dropped, renewed or kept) and that no new marker is added in front of the line after it |
| Lines.SettledAfterCode | shorten/shortener.go:218-224 | a non-marker line is kept as is, and the line after it gets a new marker iff it is a long non-comment line |
| Lines.Added | shorten/shortener.go:218-224 | at most one marker is inserted in front of any line |
| Lines.AnnotateReference | shorten/shortener.go:200-231 | the scan equals the line-by-line reference: each input line in order, each preceded by its new marker if it gets one, with dropped markers left out and renewed ones rewritten; the count is the number of new plus renewed markers |
| Lines.EmitKeepsCode | shorten/shortener.go:206-228 | the lines emitted for one input line hold that line once if it is no marker, and no other non-marker line |
| Lines.AddedUnmarked | shorten/shortener.go:219-222 | an inserted line is always a marker |
| Lines.SettledKeepsCode | shorten/shortener.go:209-226 | only a marker line can be dropped or rewritten; any other line is kept |
| Lines.EmitAllKeepsCode | shorten/shortener.go:206-230 | after k lines, the non-marker lines emitted are exactly the first k non-marker input lines, in order |
| Lines.AnnotateKeepsCode | shorten/shortener.go:200-231 | annotation emits every non-marker line exactly once, in order, and adds no other non-marker line |
| Lines.AnnotateLength | shorten/shortener.go:206-230 | output length = input length + new markers − dropped markers |
| Lines.EmitAllLength | shorten/shortener.go:206-230 | the same length identity over every prefix, and no more markers are dropped than lines were read |
| Lines.EmitLength | shorten/shortener.go:209-226 | one input line adds its new marker, plus itself unless it is a dropped marker |
| Lines.AnnotateCompliant | shorten/shortener.go:200-231 | a file whose lines all fit and hold no marker is returned unchanged with a zero count |
| Lines.CompliantPrefix | shorten/shortener.go:206-230 | the same for every prefix of such a file |
| Lines.Unmarked | shorten/shortener.go:240-244 | the filter never lengthens the list |
| Lines.UnmarkedConcat | shorten/shortener.go:240-244 | the filter distributes over concatenation |
| Lines.UnmarkedKeeps | shorten/shortener.go:241-243 | a line that is no marker is kept, between what the filter keeps before and after it |
| Lines.UnmarkedDrops | shorten/shortener.go:241 | a marker line is dropped |
| Lines.UnmarkedFrom | shorten/shortener.go:240-244 | every kept line is an input line and no marker |
| Lines.UnmarkedIdempotent | shorten/shortener.go:240-244 | filtering twice keeps what filtering once keeps |
| Lines.RemoveAnnotations | shorten/shortener.go:235-247 | the filter loop returns the content split on newlines, with markers removed, joined again |
| Lines.StripMarkersSplit | shorten/shortener.go:235-247 | the lines of the result are exactly the kept lines (one empty line when none is kept) |
| Lines.StripMarkersIdempotent | shorten/shortener.go:235-247 | removeAnnotations is idempotent |
| Comments.LabelEnd | shorten/comments.go:13 | the label run stays within the line |
| Comments.MarkerIsDirective | shorten/comments.go:13 | every marker also matches the directive pattern |
| Comments.MarkerLabel | shorten/comments.go:13 | `golines:shorten:` has the `[a-z0-9]+:[a-z0-9]` directive form |
| Comments.GoGenerateIsDirective | shorten/comments.go:13 | every line starting with `//go:generate` is a directive |
| Comments.SpacedCommentIsNoDirective | shorten/comments.go:13 | a comment `// text` holding no other slash is no directive |
| Comments.CommentHasSlashes | shorten/comments.go:31 | a comment line contains `//`, so strings.Index finds it |
| Comments.LeaderEnd | shorten/comments.go:31-32 | the prefix ends just after the first `//` of the line: no `//` starts earlier |
| Comments.Words | shorten/comments.go:33-34 | the words of a gathered line contain no space |
| Comments.MarkerNeverJoins | shorten/comments.go:28-30 | a marker never joins a reflow run |
| Comments.Cost | shorten/comments.go:58 | a line of words costs at least one per word |
| Comments.PackInvariant | shorten/comments.go:38-59 | after each word, the packing holds every word so far in order, tracks the cost of its current line, its finished lines are non-empty, lines of two or more words fit the budget, and a line was ended only because the next word would not fit |
| Comments.CloseWords | shorten/comments.go:44-57 | closing the current line before a word keeps all words in order |
| Comments.CloseShapes | shorten/comments.go:44-57 | closing the line on a word that does not fit keeps the packing's shape properties |
| Comments.ExtendWords | shorten/comments.go:57-58 | adding a word to the current line keeps all words in order |
| Comments.ExtendShapes | shorten/comments.go:44-58 | adding a word that fits (or the first word) keeps the shape properties |
| Comments.AppendGroup | shorten/comments.go:44-55 | appending a line that is non-empty, fits unless single, and was ended only on overflow keeps all three shape properties |
| Comments.ReplaceLastGroup | shorten/comments.go:57-58 | growing the current line keeps fitting and greedy line breaks |
| Comments.GroupsKeepWords | shorten/comments.go:43-70 | the flushed lines hold exactly the accumulated words, in order, none dropped, duplicated or split |
| Comments.GroupsShapes | shorten/comments.go:42-70 | no flushed line is empty, every line of two or more words fits the budget MaxLen − lineLen(prefix), and a line was ended only because the next word would not fit |
| Comments.GroupsNonEmpty | shorten/comments.go:61-70 | no empty line is flushed |
| Comments.Render | shorten/comments.go:61-69 | one output line per group |
| Comments.RenderLines | shorten/comments.go:61-69 | each output line is prefix + " " + its words joined by single spaces |
| Comments.RenderReadBack | shorten/comments.go:61-69 | a reflowed line starts with the prefix and a space, and the rest splits back into its words |
| Comments.FlushKeepsWords | shorten/comments.go:38-70 | a flush writes one line per group, the groups hold exactly the words, and each line reads back as its group |
| Comments.FlushLine | shorten/comments.go:61-69 | each flushed line reads back as its group |
| Comments.RenderCost | shorten/comments.go:58 | the tracked cost of a line is the byte length of its rendered text after the prefix |
| Comments.RenderedLineFits | shorten/comments.go:42-44 | a flushed line of two or more tab-free words is no wider than MaxLen |
| Comments.FlushWords | shorten/comments.go:38-70 | the packing loop writes exactly the reference flush of the pending words |
| Comments.StepWords | shorten/comments.go:28-35 | a line adds its words to the buffer only if it joins the run; otherwise the buffer is cleared |
| Comments.PendingWordsSpaceFree | shorten/comments.go:33-35 | no buffered word contains a space |
| Comments.ReflowUnchanged | shorten/comments.go:36-74 | when no line joins a run, every line is emitted unchanged, in order |
| Comments.PassThrough | shorten/comments.go:36-74 | a line that does not join, with nothing pending, is emitted unchanged |
| Comments.ReflowTextUnchanged | shorten/comments.go:19-79 | such content is returned unchanged |
| Comments.PendingRunDropped | shorten/comments.go:76-78 | a run still pending at end of input is not emitted |
| Comments.JoinStep | shorten/comments.go:28-35 | a joining line adds its words and sets the prefix to its text up to the first `//` |
| Comments.FlushStep | shorten/comments.go:36-74 | any other line first flushes the pending words, then is emitted, and the buffer is cleared |
| Comments.ReflowLine | shorten/comments.go:27-75 | one loop pass updates lines, words and prefix as one reference step does |
| Comments.ShortenComments | shorten/comments.go:19-79 | the loop returns the reference reflow of the content |
| Comments.LeaderShape | shorten/comments.go:31-32 | the prefix of a gathered line is its leading blanks followed by `//` |
| Comments.RenderedNoMarker | shorten/comments.go:61-69 | a line written as prefix + " " + words, under such a prefix, is never a marker |
| Comments.FlushClean | shorten/comments.go:38-70 | flushing newline-free words under such a prefix writes no marker line and no newline |
| Comments.WordsNoNewline | shorten/comments.go:33-34 | the words of a line without a newline hold none |
| Comments.JoinClean | shorten/comments.go:28-35 | a gathered line keeps: no marker or newline written, no newline in the buffer, a leader-shaped prefix whenever words are pending |
| Comments.EndClean | shorten/comments.go:36-74 | a line ending a run that is not itself a marker keeps the same invariant |
| Comments.ReflowStepClean | shorten/comments.go:27-75 | any non-marker line without a newline keeps that invariant |
| Comments.ReflowClean | shorten/comments.go:27-75 | over lines that hold no marker, the whole loop keeps it |
| Comments.ReflowTextNoMarker | shorten/comments.go:19-79 | reflowing text with no marker line gives text with no marker line |
| Format.FormatList | shorten/format.go:287-297 | item i gets Before=NewLine if i == 0 and None otherwise, After=NewLine always, and nothing else changes |
| Format.FormatFieldList | shorten/format.go:69-73 | only the fields' own decorations change, and After only to NewLine |
| Format.ChainLength | shorten/format.go:300-319 | a chain has length at least 1 |
| Format.MarkElements | shorten/format.go:210-218 | only the elements' own decorations change, and After only to NewLine |
| FormatRules.ChainLengthCountsLinks | shorten/format.go:300-319 | chainLength is 1 + the number of consecutive Fun=Selector, Selector.X=Call links |
| FormatRules.FieldListLaidOut | shorten/format.go:69-73 | every field is laid out one per line: Before=NewLine on the first, None on the others, After=NewLine on all |
| FormatRules.AndOrBreaks | shorten/format.go:171-177 | a shortened `&&`/`\|\|` with Y already on a new line recurses into X with the caller's force; otherwise it sets Y.Before=NewLine, changes nothing else and does not descend |
| FormatRules.OtherBinaryWalksBoth | shorten/format.go:178-181 | any other binary expression walks X then Y with shouldShorten and sets nothing of its own |
| FormatRules.ChainModeSteps | shorten/format.go:183-196 | chain mode sets After=NewLine on the call, walks the args with (false, true), then Fun with (shouldShorten, true) |
| FormatRules.ChainBreaksAfter | shorten/format.go:188-190 | in chain mode the call ends with a line break |
| FormatRules.CallOutsideChainSteps | shorten/format.go:197-207 | outside chain mode the args are walked (with formatList iff shortenChildArgs), then Fun with shouldShorten |
| FormatRules.CallArgsLaidOut | shorten/format.go:198-204 | with shortenChildArgs, the arguments are laid out one per line |
| FormatRules.CallArgsKeepBefore | shorten/format.go:198-204 | without it, no argument's Before changes |
| FormatRules.CallOutsideChain | shorten/format.go:197-207 | outside chain mode formatList is applied to each argument iff shortenChildArgs |
| FormatRules.MarkElementsLayout | shorten/format.go:210-218 | the first element gets Before=NewLine and every element After=NewLine |
| FormatRules.CompositeLitBreaks | shorten/format.go:209-222 | a shortened composite literal ends with those breaks after the elements are walked |
| FormatRules.MarkElementsKeepsLaterBefore | shorten/format.go:211-214 | later elements' Before is untouched |
| FormatRules.MarkElementsFrame | shorten/format.go:211-214 | no Before except the first element's changes |
| FormatRules.FuncDeclLayout | shorten/format.go:46-51 | without a recursive marker only the body is walked, unforced; with one the parameters are laid out one per line |
| FormatRules.BodiesIgnoreForce | shorten/format.go:94-225 | block, comm-clause, for, range, select and switch statements and function literals do the same whether forced or not |
| FormatRules.GenDeclForcesSpecs | shorten/format.go:53-58 | a general declaration passes Has(d) to each spec |
| FormatRules.UnhandledUnchanged | shorten/format.go:34-284 | unhandled kinds change nothing |
| FormatRules.ElseNotWalked | shorten/format.go:132-138 | the else branch of an if plays no part |
| FormatProps.NodeConfined | shorten/format.go:16-40 | formatNode changes Before only strictly below the node and After only within it, only to NewLine, and only appends to the tag-aligned structs (and only when ReformatTags is set) |
| FormatProps.FileConfined | shorten/shortener.go:157-159 | the same for a whole round over the declarations |
| FormatProps.DeclConfined | shorten/format.go:44-66 | the same for formatDecl |
| FormatProps.FuncDeclConfined | shorten/format.go:46-51 | the same for a function declaration |
| FormatProps.SignatureConfined | shorten/format.go:47-49 | the same for a function's parameter layout |
| FormatProps.StmtConfined | shorten/format.go:78-162 | the same for formatStmt |
| FormatProps.CaseClauseConfined | shorten/format.go:99-110 | the same for a case clause |
| FormatProps.ListStmtConfined | shorten/format.go:89-146 | the same for assignments, blocks, comm clauses and returns |
| FormatProps.SimpleStmtConfined | shorten/format.go:117-160 | the same for the other statements |
| FormatProps.IfConfined | shorten/format.go:132-138 | the same for an if |
| FormatProps.ExprConfined | shorten/format.go:167-261 | the same for formatExpr |
| FormatProps.LitConfined | shorten/format.go:209-222 | the same for a composite literal |
| FormatProps.ChildConfined | shorten/format.go:224-251 | the same for function literals, key/value, selector and unary expressions |
| FormatProps.LeafConfined | shorten/format.go:227-259 | the same for function and interface types, struct types and other leaves |
| FormatProps.BinaryConfined | shorten/format.go:171-181 | the same for a binary expression |
| FormatProps.CallConfined | shorten/format.go:183-207 | the same for a call |
| FormatProps.ChainModeConfined | shorten/format.go:188-196 | the same in chain mode |
| FormatProps.ArgsModeConfined | shorten/format.go:197-207 | the same outside chain mode |
| FormatProps.SpecConfined | shorten/format.go:265-285 | the same for formatSpec |
| FormatProps.ExprsConfined | shorten/format.go:220-222 | the same for a list of expressions |
| FormatProps.StmtsConfined | shorten/format.go:95-97 | the same for a list of statements |
| FormatProps.SpecsConfined | shorten/format.go:56-58 | the same for a list of specs |
| FormatProps.CaseArgsConfined | shorten/format.go:100-106 | the same for a case clause's expressions |
| FormatProps.CallArgsConfined | shorten/format.go:198-204 | the same for a call's arguments |
| FormatProps.MethodsConfined | shorten/format.go:232-237 | the same for an interface's methods |
| FormatProps.SetBeforeConfined | shorten/format.go:287-297 | writing one Before is confined to that node |
| FormatProps.SetAfterConfined | shorten/format.go:287-297 | writing After=NewLine is confined to that node |
| FormatProps.QuietUnmarked | shortener/internal/annotation/annotation.go:41-80 | a subtree carrying no marker is not recursively marked |
| FormatProps.FileQuiet | shorten/shortener.go:157-159 | a round over a file in which no node carries a marker changes no line break |
| FormatProps.NodeQuiet | shorten/format.go:16-40 | formatNode on an unmarked subtree changes no line break |
| FormatProps.DeclQuiet | shorten/format.go:44-66 | the same for formatDecl |
| FormatProps.StmtQuiet | shorten/format.go:78-162 | the same for an unforced formatStmt |
| FormatProps.IfQuiet | shorten/format.go:132-138 | the same for an unforced if |
| FormatProps.SimpleStmtQuiet | shorten/format.go:112-160 | the same for the other statements |
| FormatProps.ExprQuiet | shorten/format.go:167-261 | the same for an unforced formatExpr |
| FormatProps.ChildExprQuiet | shorten/format.go:171-251 | the same for binary, key/value, selector and unary expressions |
| FormatProps.ListExprQuiet | shorten/format.go:209-237 | the same for composite literals, function literals and interface types |
| FormatProps.CallQuiet | shorten/format.go:183-207 | the same for a call |
| FormatProps.SpecQuiet | shorten/format.go:265-285 | the same for an unforced formatSpec |
| FormatProps.ExprsQuiet | shorten/format.go:220-222 | the same for a list of expressions |
| FormatProps.StmtsQuiet | shorten/format.go:95-97 | the same for a list of statements |
| FormatProps.SpecsQuiet | shorten/format.go:56-58 | the same for a list of specs |
| FormatProps.CallArgsQuiet | shorten/format.go:198-204 | the same for a call's arguments |
| FormatProps.MethodsQuiet | shorten/format.go:232-237 | the same for an interface's methods |
| Syntax.SetBefore | shorten/format.go:173-176 | writing a node's Before changes that entry only |
| Syntax.SetAfter | shorten/format.go:190 | writing a node's After changes that entry only |
| Rewriter.ParsedFile.constructor | shorten/shortener.go:144-147 | the parsed file starts from the given declarations and decoration table |
| Rewriter.ParsedFile.FormatFile | shorten/shortener.go:157-159 | the loop over the declarations leaves the table as the round function says |
| Rewriter.ParsedFile.FormatNode | shorten/format.go:16-40 | the in-place formatNode leaves the table as the function says |
| Rewriter.ParsedFile.FormatDecl | shorten/format.go:44-66 | the in-place formatDecl leaves the table as the function says |
| Rewriter.ParsedFile.FormatFieldList | shorten/format.go:69-73 | the in-place formatFieldList leaves the table as the function says |
| Rewriter.ParsedFile.FormatStmt | shorten/format.go:78-162 | the in-place formatStmt leaves the table as the function says |
| Rewriter.ParsedFile.FormatSimpleStmt | shorten/format.go:117-146 | the same for decl, defer, expression, go and return statements |
| Rewriter.ParsedFile.FormatCompoundStmt | shorten/format.go:89-152 | the same for assignments, blocks, comm clauses, for, range, select and switch |
| Rewriter.ParsedFile.FormatCaseClause | shorten/format.go:99-110 | the same for a case clause |
| Rewriter.ParsedFile.FormatIf | shorten/format.go:132-138 | the same for an if |
| Rewriter.ParsedFile.FormatExpr | shorten/format.go:167-261 | the in-place formatExpr leaves the table as the function says |
| Rewriter.ParsedFile.FormatChild | shorten/format.go:224-251 | the same for function literals, key/value, selector and unary expressions |
| Rewriter.ParsedFile.FormatType | shorten/format.go:227-248 | the same for function, interface and struct types |
| Rewriter.ParsedFile.FormatBinary | shorten/format.go:171-181 | the same for a binary expression |
| Rewriter.ParsedFile.FormatCompositeLit | shorten/format.go:209-222 | the same for a composite literal |
| Rewriter.ParsedFile.FormatCall | shorten/format.go:183-207 | the same for a call |
| Rewriter.ParsedFile.FormatSpec | shorten/format.go:265-285 | the in-place formatSpec leaves the table as the function says |
| Rewriter.ParsedFile.FormatExprs | shorten/format.go:220-222 | the same for a list of expressions |
| Rewriter.ParsedFile.FormatStmts | shorten/format.go:95-97 | the same for a list of statements |
| Rewriter.ParsedFile.CaseArgs | shorten/format.go:100-106 | the same for a case clause's expressions |
| Rewriter.ParsedFile.MarkElements | shorten/format.go:211-218 | the same for the element marks of a composite literal |
| Rewriter.ParsedFile.CallArgs | shorten/format.go:198-204 | the same for a call's arguments |
| Rewriter.ParsedFile.InterfaceMethods | shorten/format.go:232-237 | the same for an interface's methods |
| Rewriter.ParsedFile.FormatList | shorten/format.go:287-297 | the in-place formatList leaves the table as the function says |
| Rewriter.ChainLength | shorten/format.go:300-319 | the loop returns the chain length, which is 1 + the number of call-selector links |
| Shortener.Rounds | shorten/shortener.go:116-178 | from round r the loop runs at most maxRounds + 1 − r rounds |
| Shortener.Shorten | shorten/shortener.go:105-195 | Process runs at most maxRounds + 1 = 21 parse/rewrite/print rounds |
| Shortener.StopsAtOnce | shorten/shortener.go:123-139 | the loop ends with no round and the content unchanged iff the stop rule holds: zero count, and on round 0 also ReformatTags off or no multiple tags |
| Shortener.TagsForceFirstRound | shorten/shortener.go:125-133 | with ReformatTags set and multiple tags, round 0 never stops at once |
| Shortener.EndsClean | shorten/shortener.go:123-177 | a loop that ends before the cap ends on content with nothing left to shorten |
| Shortener.EarlyEndIsClean | shorten/shortener.go:111-178 | the same for a whole Process run that ends within maxRounds rounds |
| Shortener.ShortFileSkipsLoop | shorten/shortener.go:111-194 | a formatted file with nothing to shorten and no tags to align goes straight to the final steps, with no round |
| Shortener.FinishDropsMarkers | shorten/shortener.go:179-185 | without KeepAnnotations no line of the text handed to the final formatting is a marker, whether or not comments are reflowed |
| Shortener.AnnotateRound | shorten/shortener.go:120-141 | the round's start decides the stop rule and builds the annotated content |
| Shortener.RewriteRound | shorten/shortener.go:141-169 | parse, rewrite with the in-place walk, and print, as the round function says |
| Shortener.LoopBody | shorten/shortener.go:117-169 | one pass of the loop body ends as the step function says |
| Shortener.ShortenLoop | shorten/shortener.go:116-178 | the loop with its counter and cap returns what Rounds says |
| Shortener.Process | shorten/shortener.go:105-195 | Process returns the outcome and round count of Shorten |

## Left out

- The Go parser and printer (`decorator.Parse`/`Fprint`), `format.Source` and `tags.HasMultipleTags` are not modelled. They are parameters, the fields of `Shortener.Toolchain`, and their errors are the `Failure` values.
- `tags.FormatStructTags` is not modelled. Its source is not shown, so the model only records that a struct type was handed to it (the `tagAligned` list).
- The `DotFile`/`createDot` debug graph and every logging call are left out. They produce no output the core uses.
- Error messages and their wrapping (`fmt.Errorf`) are reduced to the `Failure` kind.
- Syntax nodes are a tree datatype. Their decorations live in a table keyed by node identity, which `Rewriter.ParsedFile` updates in place. Aliasing of one node at two places of the tree is not modelled; lemmas that depend on it require the identities they compare to be apart.
- `strings.SplitSeq` is modelled as `strings.Split`: the lines are the same, only the lazy iteration differs.
- `isDirective`'s regular expression is modelled by a structural predicate (`Comments.IsDirective`) with the same alternatives and the same unanchored match.
- shorten/shortener.go:249-654 repeats the walk of shorten/format.go and the reflow of shorten/comments.go. Each piece is modelled once, from the latter files.
- Comments.RenderedLineFits: proved only for lines whose words contain no tab. The budget is measured in bytes while the width counts a tab as TabLen runes.
- Comments.GroupsShapes: a line holding a single word may exceed the budget, as in the source; only lines of two or more words are promised to fit.
- Comments.ShortenComments: a run of comment lines still pending at the end of the input is dropped, as in the source (stated by `Comments.PendingRunDropped`), not flushed.
- Annotation.ParseCreate: stated for widths within the 64-bit range, since strconv.Atoi rejects anything wider.
- Widths and counts are unbounded integers. Go's 64-bit `int` cannot wrap at line widths and line counts, so no wrap-around is modelled.
- main.go, internal/formatter, internal/diff, code generation and the tags and comments packages are not part of this model.
