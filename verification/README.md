# html-parser in Dafny

A model of the toy HTML tokenizer and tree builder of b1ron/html-parser (Go).
The model follows the code. The code borrows the state names of the tokenizer
in section 13.2.5 of the WHATWG HTML Living Standard, but not its transitions:
- tag-open pushes any rune other than `!` and `/` back into tag-name;
- markup-declaration-open compares the whole identifier with "DOCTYPE",
  case-sensitively;
- there is no case folding and no end-of-file handling, and no tokens are
  emitted;
- the loop can spin for ever.

- `node.dfy` (module `Nodes`) models node.go. It holds:
  - the node kinds and their printable names (`nodeTypeMap`);
  - the two node kinds the parser builds;
  - the child list `listNode` as a class whose `Append` keeps `children`,
    `nextChild` and `pos` in step;
  - `tree.newList`.
- `scanner.dfy` (module `Scanning`) models the scanner of parser.go. It is a
  rune cursor with one step of push-back, the way `bufio.Reader.ReadRune` and
  `UnreadRune` behave. It is given as a value (`Cursor`) with its laws, and as
  the object `Scanner`, whose methods are proved to move the cursor exactly as
  the value does.
- `parser.dfy` (module `Parsing`) models the loop of `parse`. It holds:
  - the 76 tokenizer states and the 23 insertion modes;
  - one iteration as the function `Step` over a `Machine`, which is the
    reader, the state, the name buffer and the root list's children;
  - the loop as `Run`, bounded by fuel;
  - the object `Parser`, whose `Parse` method is proved to build exactly the
    tree `Run` computes.
- `parser_properties.dfy` (module `ParserProperties`) proves what the loop
  does:
  - state by state, and over stretches of input;
  - that every node appended is well formed;
  - that the inputs `<!--x-->` and `<!DOCTYPE><…` never let `parse` return;
  - that the input of the package's test yields the root children
    [document "html", element "html"].

Where the loop of the source may spin for ever, the model runs it for at most
`fuel` iterations. It also reports whether the end of the input was reached
within that bound.

## Model

| member | source | states |
|---|---|---|
| Nodes.TypeName | node.go:16-30 | Looking a kind up in `nodeTypeMap` yields a non-empty name exactly for the five named kinds 0..4, and "" for any other kind, as Go's map lookup does |
| Nodes.TypeNamesDistinct | node.go:16-30 | The five named kinds have five different names |
| Nodes.Node.Type | node.go:65-84 | `documentNode.Type` (node.go:65-67) and `elementNode.Type` (node.go:82-84): the kind of an element node is `nodeElement`, and of a document node `nodeDocument`; both are keys of `nodeTypeMap` |
| Nodes.Node.String | node.go:69-92 | `documentNode.String` (node.go:69-71) and `elementNode.String` (node.go:90-92): `String()` is "element" exactly for element nodes and "document" exactly for document nodes |
| Nodes.Node.Data | node.go:61-80 | `documentNode.Data` (node.go:61-63) and `elementNode.Data` (node.go:78-80): `Data()` gives back the stored text unchanged: the node's kind and its `Data()` rebuild the node |
| Nodes.NodeAccessors | node.go:61-92 | `Data()` gives back the text a node was built with; an element is of kind `nodeElement` named "element"; a document node is of kind `nodeDocument` named "document" |
| Nodes.ListNode.constructor | node.go:40 | A new list is of kind `nodeList`, with no children, a nil next child and `pos` 0, and its fields agree |
| Nodes.ListNode.Append | node.go:43-47 | `n` is added at the end of `children` and earlier children are unchanged; `nextChild` becomes `n` and `pos` grows by one; a list whose fields agree still agrees, and `Next()` and `lastChild()` then both return `n` |
| Nodes.ListNode.Next | node.go:49-51 | `Next` is defined only while `nextChild` is set; on a list whose fields agree it is the last child |
| Nodes.ListNode.LastChild | node.go:53-55 | `lastChild` is defined only for `1 <= pos <= len(children)`; on a list whose fields agree it is the last child and equals `Next()` |
| Nodes.Tree.constructor | parser.go:188 | `&tree{}` has no root list yet |
| Nodes.Tree.NewList | node.go:39-41 | `newList` returns a new list of kind `nodeList` with no children, no next child and `pos` 0 |
| Scanning.IsAction | parser.go:175-178 | The runes that stop an identifier are exactly `<`, `>`, `/`, `&`, `!` and space |
| Scanning.Cursor.Read | parser.go:146-152 | `read` returns EOF exactly at the end of the input, and then does not move. Otherwise it returns the rune at the position and moves one past it, so that rune can be unread |
| Scanning.Cursor.Unread | parser.go:154 | `unread` steps back one rune only right after a successful read. It never leaves anything else to unread |
| Scanning.Cursor.ScanRun | parser.go:161-171 | The loop of `scanIdent` leaves the reader valid, over the same input, with nothing left to unread |
| Scanning.Cursor.ScanIdent | parser.go:159-173 | `scanIdent` leaves the reader valid, over the same input, with nothing left to unread |
| Scanning.ScanRunSpec | parser.go:161-171 | The loop adds to `lit` exactly the maximal run of non-action runes at the position, and stops at an action rune or the end of the input |
| Scanning.ScanIdentSpec | parser.go:158-178 | `scanIdent` pushes the current rune back and returns the maximal run of runes from there that are neither EOF nor action runes; the result holds no action rune; the reader stops at an action rune or the end |
| Scanning.ScanIdentStopsAt | parser.go:158-173 | Any end `e` of a non-action run from the pushed-back position is exactly where `scanIdent` leaves the reader, and the run up to `e` is its result |
| Scanning.ScanIdentLeavesStopRune | parser.go:160-168 | When `scanIdent` stops on an action rune, that rune is left unread, so the next `read` returns it. A `scanIdent` right after that read pushes it back again, returns "" and leaves the reader where it was |
| Scanning.ReadAdvances | parser.go:146-152 | `read` returns the rune at the position and advances by one, or returns EOF without moving at the end of the input |
| Scanning.UnreadAfterRead | parser.go:146-154 | An `unread` right after a successful `read` makes the next `read` return the same rune again |
| Scanning.UnreadIgnored | parser.go:154 | Any other `unread` fails, its error is discarded, and it changes nothing |
| Scanning.Scanner.constructor | parser.go:182 | A new scanner is at the start of its input with nothing to unread |
| Scanning.Scanner.Read | parser.go:146-152 | The method returns the rune `read` returns and moves the cursor to where `read` leaves it |
| Scanning.Scanner.Unread | parser.go:154 | The method moves the cursor exactly as a one-step `UnreadRune` does |
| Scanning.Scanner.Scan | parser.go:156 | `scan` is a plain `read` |
| Scanning.Scanner.ScanIdent | parser.go:158-173 | The accumulating loop returns the identifier and leaves the cursor exactly where `scanIdent` does, so ScanIdentSpec holds of it |
| Parsing.Fresh | parser.go:182-189 | `parse` starts from a new parser's state and an empty root list: the reader at the start of the input, state data, an empty buffer, no nodes. Its first iteration stops at once exactly on the empty input |
| Parsing.DoctypeName | parser.go:246-254 | In DOCTYPE-name, `>` appends nothing; every other rune appends a node. The reader stays valid over the same input, and the buffer is unchanged |
| Parsing.Dispatch | parser.go:196-255 | One pass through the switch keeps the reader valid over the same input. It appends at most one node and never removes one. A state without a case changes nothing |
| Parsing.Step | parser.go:190-256 | One iteration stops exactly at the end of the input. When it stops, it changes nothing but the spent push-back slot, so the buffer is not flushed. Nodes are only appended |
| Parsing.Loop | parser.go:190-256 | A loop whose body advances keeps the reader valid over the same input. It only appends nodes, and reports an end only at the end of the input |
| Parsing.StepSteady | parser.go:190-256 | The iteration of `parse` is defined on every valid machine and advances it |
| Parsing.Run | parser.go:190-256 | The loop of `parse` keeps the reader valid over the same input. It only appends nodes, and returns only at the end of the input |
| Parsing.LoopUnfold | parser.go:190-194 | The loop ends when its body reports EOF, and otherwise goes on from the machine the body produced |
| Parsing.RunUnfold | parser.go:190-194 | The same for the loop of `parse` |
| Parsing.RunAdvance | parser.go:190-256 | A run that has reached a machine goes on one iteration later, or ends there at EOF |
| Parsing.Parser.constructor | parser.go:180-183 | `newParser` puts the reader at the start of the input, in state data and mode initial, with an empty buffer |
| Parsing.Parser.Consume | parser.go:141-142 | `consume` appends the rune to the buffer |
| Parsing.Parser.Reset | parser.go:144 | `reset` empties the buffer |
| Parsing.Parser.Handle | parser.go:196-255 | The in-place switch changes the reader, state, buffer and root children exactly as `Dispatch` does, and never touches the mode |
| Parsing.Parser.Iterate | parser.go:191-255 | One in-place iteration ends in the state `Step` computes and reports EOF exactly when `Step` stops |
| Parsing.Parser.Parse | parser.go:185-258 | `parse` starts from a new tree whose root list is empty. Within `fuel` iterations it ends with the root children, reader, state and buffer `Run` computes, and `finished` says whether EOF was reached |
| ParserProperties.DataStep | parser.go:197-201 | In data, only `<` changes the state (to tag-open); every other rune is dropped |
| ParserProperties.TagOpenStep | parser.go:202-211 | In tag-open, `!` leads to markup-declaration-open and `/` to end-tag-open; any other rune is pushed back and the state becomes tag-name |
| ParserProperties.TagOpenReconsumes | parser.go:208-210 | The rune tag-open pushes back is the first one tag-name consumes |
| ParserProperties.TagNameStep | parser.go:212-224 | In tag-name, a space or `/` changes only the state. `>` appends one element node whose data is the buffer, empties the buffer and returns to data. Any other rune is appended to the buffer verbatim |
| ParserProperties.RunEndExists | parser.go:158-173 | Every position starts a maximal non-action run, which `scanIdent` stops at |
| ParserProperties.MarkupDeclarationStep | parser.go:225-229 | Markup-declaration-open moves to DOCTYPE exactly when `scanIdent` returns "DOCTYPE"; otherwise the state is unchanged. Either way the reader is left at the end of the run |
| ParserProperties.DoctypeKeyword | parser.go:226-227 | The run is "DOCTYPE" exactly when the input holds upper-case "DOCTYPE" there, followed by an action rune or the end, so the match is case-sensitive |
| ParserProperties.DoctypeStep | parser.go:230-236 | In DOCTYPE, a space or `>` moves to before-DOCTYPE-name; every other rune is dropped |
| ParserProperties.BeforeDoctypeNameStep | parser.go:237-245 | In before-DOCTYPE-name, spaces are skipped; any other rune falls through to DOCTYPE-name with the same rune |
| ParserProperties.DoctypeNameStep | parser.go:246-254 | In DOCTYPE-name, `>` returns to data without appending. Any other rune appends one document node named by `scanIdent`'s run from that rune, and a space also moves to after-DOCTYPE-name |
| ParserProperties.UnhandledStep | parser.go:196-255 | A state without a case reads the rune and ignores it |
| ParserProperties.UnhandledIgnoresRest | parser.go:190-256 | From a state without a case, such as end-tag-open, every remaining rune is ignored. The loop then stops at EOF with the buffer and nodes unchanged |
| ParserProperties.LoopSplit | parser.go:190-256 | Running the loop for `a + b` iterations is running `a`, then `b` more unless EOF was reached |
| ParserProperties.RunSplit | parser.go:190-256 | The same for the loop of `parse` |
| ParserProperties.RunStable | parser.go:190-194 | Once the loop has met EOF, more fuel changes nothing |
| ParserProperties.StepKeepsSafe | parser.go:196-255 | One iteration keeps the buffer free of space, `/` and `>`. It appends element names free of those, and document names free of action runes |
| ParserProperties.RunKeepsSafe | parser.go:190-256 | Any number of iterations keeps that invariant |
| ParserProperties.ParsedNodesSafe | parser.go:185-258 | Every node `parse` appends from a fresh parser is well formed in that sense |
| ParserProperties.MarkupDeclarationStuck | parser.go:160-167 | In markup-declaration-open with an action rune next, every iteration reads it, then unreads, rereads and unreads it again, so the loop never moves |
| ParserProperties.DoctypeNameStuck | parser.go:246-254 | In DOCTYPE-name with an action rune other than space or `>` next, every iteration appends an empty-named document node and never moves |
| ParserProperties.LeadsLoop | parser.go:190-256 | A loop led to a machine in `k` iterations goes on from there with `k` fewer |
| ParserProperties.LeadsTrans | parser.go:190-256 | Two stretches of iterations make one |
| ParserProperties.ReachesRun | parser.go:190-256 | A run of `parse` that reaches a machine in `k` iterations goes on from it with `k` fewer |
| ParserProperties.ReachesTrans | parser.go:190-256 | Two stretches of `parse` iterations make one |
| ParserProperties.DataSkips | parser.go:197-201 | In data, a stretch without `<` is dropped one rune per iteration |
| ParserProperties.TagNameCollects | parser.go:222-223 | In tag-name, runes other than space, `/` and `>` are appended to the buffer verbatim, in order |
| ParserProperties.TagOpens | parser.go:199-211 | `<` and then a rune other than `!` and `/` lead in two iterations to tag-name with that rune pushed back |
| ParserProperties.TagNameCloses | parser.go:212-224 | In tag-name, a name closed by `>` appends one element node (the buffer followed by the name), empties the buffer and returns to data |
| ParserProperties.StartTag | parser.go:197-224 | A start tag `<name>` read in data appends one element node named by the buffer followed by the name, then returns to data |
| ParserProperties.EndTagOpens | parser.go:199-207 | `</` read in data leads to end-tag-open |
| ParserProperties.MarkupOpens | parser.go:199-205 | `<!` read in data leads to markup-declaration-open |
| ParserProperties.DoctypeOpens | parser.go:197-236 | `<!DOCTYPE` followed by a space or `>` leads to before-DOCTYPE-name after that rune |
| ParserProperties.DoctypeNamed | parser.go:237-254 | In before-DOCTYPE-name, a non-empty name closed by `>` appends one document node with that name, then returns to data |
| ParserProperties.DoctypeDeclaration | parser.go:197-254 | `<!DOCTYPE name>` read in data appends one document node named `name`, then returns to data |
| ParserProperties.MarkupDeclarationNeverFinishes | parser.go:225-229 | An input that opens with `<!` and a run other than "DOCTYPE" ended by an action rune never lets `parse` return, and nothing is appended |
| ParserProperties.CommentNeverFinishes | parser.go:225-229 | On `<!--x-->` the loop never returns |
| ParserProperties.NamelessDoctypeSticks | parser.go:230-254 | `<!DOCTYPE>` followed by an action rune other than space or `>` reaches, in five iterations, DOCTYPE-name stuck at that rune with one empty-named document node appended |
| ParserProperties.ReachesDoctypeNameStuck | parser.go:246-254 | A run that reaches such a stuck machine never returns, and it appends one empty-named document node per remaining iteration |
| ParserProperties.NamelessDoctypeNeverFinishes | parser.go:230-254 | On `<!DOCTYPE><…` the loop never returns, and it appends empty-named document nodes without end |
| ParserProperties.TestDocumentLayout | parser_test.go:9-13 | The test input is 36 runes long; the runes the parse turns on sit at the stated positions |
| ParserProperties.TestDocumentHead | parser.go:197-254 | On the test input, the first line appends the document node "html" in seven iterations |
| ParserProperties.TestDocumentBody | parser.go:197-224 | The second line then appends the element node "html" in ten iterations |
| ParserProperties.TestDocumentTail | parser.go:197-207 | The third line then leads to end-tag-open in five iterations |
| ParserProperties.TestDocumentReaches | parser.go:190-256 | The test input reaches end-tag-open at its end tag's name after 22 iterations, with both nodes appended |
| ParserProperties.EndTagOpenRunsOut | parser.go:190-194 | From there the rest of the input is ignored, and the loop stops at EOF |
| ParserProperties.TestDocumentTree | parser_test.go:9-18 | `parse` of the test input returns within 29 iterations. Its root children are exactly [document node "html", element node "html"], and it ends in end-tag-open with an empty buffer |

## Left out

- `Parsing.Run` and `Parsing.Parser.Parse` run for at most `fuel` iterations. The loop of `parse` has no bound and does not return on some inputs (see `MarkupDeclarationNeverFinishes` and `NamelessDoctypeNeverFinishes`). The bound is the only way to give such a loop a value here. `finished` false means the bound was hit before EOF.
- `bufio`/`io` plumbing and UTF-8 decoding: the input is a sequence of already decoded characters. A read error other than end of input is not modelled.
- Go's `EOF = -1` is a separate `Rune` value `EOF` rather than an integer that no character equals.
- The insertion mode is an inert field: `newParser` sets it, and nothing reads it.
- The roughly 70 declared states without a case have no invented transitions: each ignores the rune it reads. Their numbering follows the declaration order.
- `elementNode.attr` and `Attr()` are left out: the map is never filled in.
- `nextChild` is modelled as the last appended node (`Option<Node>`), not as a pointer to a copy of the interface value.
- `listNode`'s embedded `nodeType` and the `nodeType.Type()` method are kept only as the constant field `nodeType`.
- tree.go is not part of this model: it redeclares the node types in conflict with node.go, and parse uses node.go's shapes.
- parser_test.go only supplies its input string. Its call `newParser(*b)` and the absence of any assertion are not modelled.
