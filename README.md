# SGF tree builder

This project models the tree builder of an SGF parser: `_parseTokens` and `parseTokens` in `src/parse.js`.
The builder turns a stream of SGF tokens into game trees. The tokens are:

- `(` and `)` parentheses;
- `;` node markers;
- property identifiers such as `B` or `CoPyright`;
- bracketed values such as `[aa]`.

Every `;` starts a node object `{id, data, parentId, children}`. Its id comes from the allocator `getId`.

A sibling chain is the run of nodes up to the next `(` or `)`. Each node of a chain is the only child of the node before it. The chain's last node takes the variations, one nested chain per `(`.

A call of `_parseTokens` whose chain has no `;` creates no node of its own:

- When a `(` or the end of the input ends that chain, the call synthesises a container with id `null` and parses the variations below it.
- When a `)` ends it, the call returns `null`. A nested call then adds no child. At top level, `parseTokens` fails reading `children` of that `null`; the model returns the error `NullRoot`.

As the parse goes, the builder:

- fills in the caller's dictionary, when one is given;
- calls `onNodeCreated` once per node, before the node gets any child;
- calls `onProgress` for each `)` that ends a variation loop.

`parseTokens` returns the children of the top-level call's node. A throw leaves the dictionary entries and the callbacks made so far with the caller, so the model returns them with the error too.

Module layout:

- `Tokens` (tokens.dfy): the token record and its kinds, and the parse errors. It also holds the scan helpers `FirstStructural`, `ChainEnd` and `SemicolonCount`, and `ValueText`, the text of a bracketed value.
- `Identifiers` (identifiers.dfy): the normalisation of property identifiers (`CoPyright` → `CP`).
- `Store` (store.dfy): the node objects, kept in allocation order.
  - A JavaScript reference to a node is its position in the store (its *handle*). So `children`, the dictionary and the chain's anchor hold handles, and an update through one of them is seen through all of them.
  - `StoreOk` is the invariant of the store. The module also holds the lemmas showing that allocating a node, pushing a child, adding a key and appending a value each keep it.
- `Steps` (steps.dfy): the state a parse shares across its recursive calls, as a value `State`.
  - It holds a function for each step, and the invariant `Inv`.
  - `ChainState` describes the first loop. `GrowsAt` frames the variation loop. `Parsed` describes one whole call of `_parseTokens`.
- `Reference` (reference.dfy): `_parseTokens` as recursive functions on `State`, one per part of the call: `Scan` (the first loop), `ParseFrom` (a whole call), `ChainThenVariations`, `Variations` (the second loop) and `VariationAt` (one `(`). The lemmas beside them prove what each part keeps and where it stops.
- `Parser` (parser.dfy) has two parts:
  - The class `TreeBuilder` is the imperative form. Its fields are the cursor, the allocator's call count, the node store, the dictionary and the two callback logs. Its methods run the two loops of `_parseTokens` and recurse into variations. Each method's `ensures` says that its new state and results equal the matching `Reference` function.
  - `ParseTokens` is the entry point. It returns the result as plain trees and the caller-visible effects (`Effects`).
- `Scenarios` (scenarios.dfy): the parser's own test inputs as token sequences, with the exact trees, reports and dictionaries they produce, called through `ParseTokens`.

## Where the tests and the code disagree

`tests/parse.test.js:131-147` expects `;B[hh];W[ii]` and `B[hh];W[ii]` to parse like `(;B[hh];W[ii])`, which gives one tree with `B` at its root. `src/parse.js:112-119` returns the children of the top-level call's node instead:

- For `;B[hh];W[ii]` that node is `B` itself, so only the `W` node comes back.
- For `B[hh];W[ii]`, `B[hh]` comes before any `;` and is dropped, and the `W` node is returned, so no trees come back.

The model follows the code. `Scenarios.OutsideAGameExample` and `Scenarios.MissingSemicolonExample` state what it returns.

## Model

| member | source | states |
|---|---|---|
| Tokens.UnexpectedAt | src/parse.js:61-62 | The error names the token's type, with the line and column counted from 1 |
| Tokens.FirstStructural | src/parse.js:18-27 | The first token from a position on that is not an identifier or a value: every token before it is one of those two, and it is neither |
| Tokens.ChainEndIff | src/parse.js:18-66 | `ChainEnd` is the one index with only `;`, identifiers and values before it and none of those at it: both directions are proved |
| Tokens.ValueText | src/parse.js:59 | `value.slice(1, -1)`: the value equals its first character, then the result, then its last character; the result is empty when the value has fewer than two characters |
| Identifiers.Upper | src/parse.js:47 | `value.toUpperCase()` keeps the length and upper-cases each character on its own |
| Identifiers.KeepInvariant | src/parse.js:48 | The filter is no longer than its input, and it keeps only characters that upper-casing leaves unchanged |
| Identifiers.ShortCodeIsFilter | src/parse.js:47-48 | Both branches of the normalisation give the same result: the case-invariant characters of the identifier, in order |
| Identifiers.ShortCodeFixedPoint | src/parse.js:47-48 | An identifier is kept as written if and only if it is already upper case, which holds if and only if every character is case invariant |
| Identifiers.ShortCodeIdempotent | src/parse.js:47-48 | A normalised identifier is upper case, so normalising it again changes nothing |
| Identifiers.ShortCodeEmpty | src/parse.js:47-55 | An identifier normalises to the empty string, so that it clears the active property, if and only if it consists of lower-case letters only |
| Identifiers.ShortCodeOfCoPyright | tests/parse.test.js:111 | `CoPyright` is recorded as `CP` |
| Identifiers.ShortCodeOfWhite | tests/parse.test.js:111 | `White` is recorded as `W` |
| Identifiers.ShortCodeOfComment | tests/parse.test.js:111 | `Comment` is recorded as `C` |
| Identifiers.ShortCodeOfCA | tests/parse.test.js:36-40 | `CA` is already upper case and is kept as `CA` |
| Store.RealHandles | src/parse.js:30-31 | The nodes that carry an allocated id, listed in allocation order |
| Store.RealHandlesOrdered | src/parse.js:30-31 | Real nodes are listed in strictly increasing allocation order |
| Store.RealHandlesComplete | src/parse.js:30-31 | Every node with an id is among the real nodes |
| Store.AddNodeOk | src/parse.js:30-35 | Allocating a node with no children keeps the store consistent, and the node becomes the newest real node exactly when it has an id. The node either has the next id, or is a container with no parent and no data |
| Store.PushChildOk | src/parse.js:41 | `children.push(child)` of a newer node that carries the parent's id keeps children ordered and parents consistent |
| Store.AddKeyOk | src/parse.js:51 | Adding an empty list under a normalised identifier keeps the store consistent |
| Store.AddValueOk | src/parse.js:59 | Appending a value to an existing property keeps the store consistent |
| Store.DictionaryKeys | src/parse.js:37 | The dictionary's keys are exactly the ids the allocator returned |
| Store.DictionaryFindsNode | src/parse.js:37 | With an allocator that never repeats an id, `dictionary[getId(k)]` is the k-th node allocated |
| Store.TreeAtWellParented | src/parse.js:33 | In every tree read out of a consistent store, each child carries its parent's id. A container child carries `null` |
| Store.ForestBelow | src/parse.js:119 | The trees below a node are well parented, and each of them carries that node's id as its parent |
| Store.FirstRealHandle | src/parse.js:30-31 | When the oldest node is real, it is the first real node |
| Steps.InvAfterSemicolon | src/parse.js:27-44 | A `;` keeps the parse consistent. It makes one allocator call, registers the new node in the dictionary, hangs the node below `parentId` or below the previous node, and reports the previous node before it gets its only child |
| Steps.InvAfterIdent | src/parse.js:45-56 | A property identifier keeps the parse consistent |
| Steps.InvAfterValue | src/parse.js:57-60 | A value keeps the parse consistent |
| Steps.InvAfterContainer | src/parse.js:68-74 | The synthesised container allocates no id and keeps the parse consistent |
| Steps.InvAfterAttach | src/parse.js:87-89 | Pushing a nested chain's anchor onto the children keeps the parse consistent |
| Steps.InvAfterReport | src/parse.js:23 | Reporting the oldest unreported real node while it has no children keeps the reports in allocation order |
| Steps.LastUnreported | src/parse.js:23 | When every older node is reported, the newest real node is the next one due for `onNodeCreated` |
| Steps.ChainAfterSemicolon | src/parse.js:27-44 | A `;` extends the chain by one node. The first `;` of a chain becomes its anchor. Every later one becomes the only child of the previous node, and the active property is kept |
| Steps.ChainAfterIdent | src/parse.js:45-56 | An identifier keeps the chain. It makes its normalised form a key of the current node and the active property, or clears the property when the form is empty, or does nothing before the first `;` |
| Steps.ChainAfterValue | src/parse.js:57-60 | A value keeps the chain and is appended to the active property's list, if there is one |
| Steps.ChainEndsOpen | src/parse.js:68-77 | A chain ended by `(` or by the end of the input is not empty. Once its last node is reported, or the container is allocated, it is complete, and its anchor is real exactly when the chain starts with a `;` |
| Steps.AttachReady | src/parse.js:85-88 | The anchor of a nested parse is newer than every child the node already has, and it carries the node's id as its parent |
| Steps.GrowsAtPush | src/parse.js:88 | Pushing a child onto the chain's last node changes no other node and only extends its children |
| Steps.GrowsAfterVariations | src/parse.js:79-96 | The variation loop leaves the chain and every older node untouched |
| Steps.ParsedAfterVariations | src/parse.js:68-98 | A chain followed by its variation loop meets `Parsed`: either the error of an unrecognised token, or a stop at the end or at a `)` with every node reported. The returned anchor is the first node allocated |
| Reference.NodeCreated | src/parse.js:23 | `onNodeCreated` appends the node at that handle, as it is at that moment, to the log, and nothing else changes |
| Reference.Advance | src/parse.js:65 | `next()` moves the cursor by one token, stays at the end of the input, and changes nothing else |
| Reference.Step | src/parse.js:27-65 | One pass of the first loop over a `;`, an identifier or a value moves the cursor by exactly one token and only adds to the store. It throws nothing and does not close the chain, and the current node and active property still point into the store |
| Reference.Scan | src/parse.js:18-66 | Every token the first loop passes is a `;`, an identifier or a value. When it throws, it has stopped at an unrecognised token and the error names that token. When a `)` stopped it, that `)` is at the cursor, unconsumed; otherwise the cursor is at a `(` or at the end |
| Reference.ScanStops | src/parse.js:18-66 | The first loop stops exactly at `ChainEnd`. It throws if and only if the token there is not recognised, and reports a closed chain if and only if that token is a `)` |
| Reference.ScanKeepsChain | src/parse.js:18-66 | The first loop keeps the parse consistent and keeps `ChainState`. It makes one allocator call per `;` passed and logs no progress. Before the first `;` nothing but the cursor moves. After it, the nodes allocated since form one chain, in which each node is the only child of the one before. The last node has no children and is not yet reported, and the active property belongs to a node of that chain |
| Reference.ParseFrom | src/parse.js:7-99 | One call of `_parseTokens` only moves the cursor forward and only adds to the store. When it throws, it returns nothing and has stopped at an unrecognised token, whose error it names. Otherwise it stops at the end of the input or at a `)` |
| Reference.ParseFromOk | src/parse.js:7-99 | One call keeps the parse consistent and meets `Parsed`. It returns nothing exactly when its chain is empty, and then only the cursor moves. Otherwise it returns the first node it allocated: the head of the chain, whose nodes each have the next as only child. That node is real if and only if the chain starts with a `;`. An error is only ever thrown for a non-empty chain, and without an error every real node is reported |
| Reference.ClosedOk | src/parse.js:22-25 | A `)` that ends the first loop: once the chain's last node is reported, the call meets `Parsed` and returns the anchor, or `null` when the chain has no `;` |
| Reference.ChainThenVariations | src/parse.js:68-98 | After the chain's last node is reported, or the container allocated, the variation loop runs below it. An error returns nothing; otherwise the call stops at the end of the input or at a `)` |
| Reference.ChainThenVariationsOk | src/parse.js:68-98 | A chain that a `(` or the end of the input ended is not empty. It returns its first node, which is real exactly when the chain starts with a `;`, and the whole call meets `Parsed` |
| Reference.Variations | src/parse.js:79-96 | The variation loop throws only at an unrecognised token, with its error. Otherwise it stops at the end of the input or at a `)`, and when that `)` stopped it, the last progress value logged is that `)`'s own |
| Reference.VariationsOk | src/parse.js:79-96 | The variation loop keeps the parse consistent. It changes no node allocated before it except by appending to the children of the chain's last node (`GrowsAt`). Without an error, every real node is reported |
| Reference.VariationAt | src/parse.js:82-89 | A `(` of the variation loop is consumed, so the cursor moves strictly forward. The nested call's error is passed on, and without one the nested call stopped at the end or at a `)` |
| Reference.VariationAtOk | src/parse.js:82-89 | One `(` keeps the parse consistent and changes nothing older but the children of the chain's last node. Those children are unchanged when the nested chain is empty. Otherwise they are exactly the old ones followed by the nested chain's first node |
| Reference.ScanSkipsOrphans | src/parse.js:45-60 | Identifiers and values before a chain's first `;` change nothing but the cursor: the first loop continues as if it started at the first token that is neither |
| Reference.EmptyChain | src/parse.js:18-25 | A call whose chain is empty returns `null` and changes nothing but the cursor. It reports nothing and leaves the cursor on the `)` |
| Reference.EmptyVariation | src/parse.js:82-95 | An empty variation `()` adds no child, allocates and reports nothing, and logs no progress. The variation loop goes on after its `)` |
| Parser.TreeBuilder.constructor | src/parse.js:101-117 | A fresh parse: cursor at 0, no allocator calls, no nodes, no callbacks yet, and an empty dictionary of its own entries when the caller gives one |
| Parser.TreeBuilder.Next | src/parse.js:65 | The new state is `Advance` of the old one |
| Parser.TreeBuilder.Report | src/parse.js:23 | The new state is `NodeCreated` of the old one: `onNodeCreated` gets the node as it is now |
| Parser.TreeBuilder.NewContainer | src/parse.js:68-74 | Appends a container with id `null`, no data, parent `null` and no children, and returns its handle. Nothing else changes, so no id is allocated |
| Parser.TreeBuilder.AttachChild | src/parse.js:88 | `node.children.push(child)`, and nothing else changes |
| Parser.TreeBuilder.ReportProgress | src/parse.js:91 | `onProgress` logs the progress of the `)` at the cursor, and nothing else changes |
| Parser.TreeBuilder.ParseSequence | src/parse.js:18-66 | The loop's final state and outputs equal `Scan` of the starting state. So it stops where `ScanStops` says and leaves what `ScanKeepsChain` says |
| Parser.TreeBuilder.ChainSemicolon | src/parse.js:27-44 | The new state is `OnSemicolon` of the old one with the cursor advanced. The new node becomes the chain's last node, and also its anchor when it is the chain's first. This equals the first loop's `Step` |
| Parser.TreeBuilder.ChainIdent | src/parse.js:45-56 | The store becomes `HeapAfterIdent` of the old one, the active property becomes `PropertyAfterIdent`, and the cursor advances. This equals `Step` |
| Parser.TreeBuilder.ChainValue | src/parse.js:57-60 | The store becomes `HeapAfterValue` of the old one, with the unescaped text between the brackets, and the cursor advances. This equals `Step` |
| Parser.TreeBuilder.Parse | src/parse.js:7-99 | The final state, the returned node and the error equal `ParseFrom` of the starting state, whose properties `ParseFromOk` proves |
| Parser.TreeBuilder.EndAtClose | src/parse.js:22-25 | A `)` that ends the chain reports its last node, if there is one, and changes nothing else. The `)` stays unconsumed |
| Parser.TreeBuilder.EndWithVariations | src/parse.js:68-98 | The final state and result equal `ChainThenVariations`: the last node is reported, or the container synthesised, and the variations are parsed below it |
| Parser.TreeBuilder.ParseVariations | src/parse.js:79-96 | The loop's final state and error equal `Variations` of the starting state, whose properties `VariationsOk` proves |
| Parser.TreeBuilder.Variation | src/parse.js:82-89 | The new state and error equal `VariationAt`. `VariationAtOk` says which child, if any, it appends |
| Parser.ConsistentReadable | src/parse.js:39-41 | A consistent state can be read out as trees, and every `onNodeCreated` call received a node that had no children yet |
| Parser.TreeAtAnnounced | src/parse.js:23-40 | Every node with an id in a tree read out of the store was reported. The report carries the same id and parent, and data that the tree's data has only extended since |
| Parser.OutputOk | src/parse.js:112-119 | A finished top-level parse meets `OutcomeOk`. `onNodeCreated` received one node per allocator call, in call order, each with that call's id and no children. The returned trees are well parented. Their roots carry parent `null`, or the first id when the input's first chain starts with a `;`. Every node with an id in them was reported. The dictionary matches (`DictionaryOk`), and every progress value came from a `)` token |
| Parser.DictionaryOk | src/parse.js:37 | The dictionary is there exactly when the caller passed one. Its keys are the caller's keys plus every allocated id. Each allocated id maps to a reported node carrying that id, and every other key keeps the caller's entry |
| Parser.ParseTokens | src/parse.js:101-120 | The result and effects are what `ParseFrom` from the start leaves: an error, `NullRoot` for a `null` root, or the children of the returned node as trees. The dictionary writes and callback logs are returned on every path, errors included. It fails with `NullRoot` if and only if the top-level chain is empty, and with an unexpected-token error only at an unrecognised token. A success meets `OutcomeOk`, and the default allocator numbers the reported nodes 0, 1, 2, … |
| Scenarios.CapitalsAreShortCodes | src/parse.js:47 | `B`, `W`, `C`, `AB` and `SZ` are upper case and are recorded as written |
| Scenarios.ScanOfRepeatedValues | tests/parse.test.js:21-26 | `;AB[cc][dd:ee])`: both values go to `AB`, in order. The `)` ends a chain of one node, with id 0, and is left unconsumed |
| Scenarios.ScanCarriesProperty | src/parse.js:27-60 | `;B[aa];[bb]`: a `;` does not clear the active property, so `[bb]` is appended to the first node's `B` list. The second node stays empty, and the first was reported before the append |
| Scenarios.ChainOfTwoTop | tests/parse.test.js:19-31 | `(;B[aa]SZ[19];AB[cc][dd:ee])` with a dictionary: the container's single child is the chain of nodes 0 and 1, and the whole input is consumed |
| Scenarios.ReadOutMultipleNodes | tests/parse.test.js:19-31 | The state that parse leaves reads out as the expected tree: `B`, `SZ` on node 0, whose only child holds `AB: [cc, dd:ee]` |
| Scenarios.EffectsOfMultipleNodes | tests/parse.test.js:19-31 | That parse writes ids 0 and 1 over the caller's dictionary, keeps the caller's other entries, and reports both nodes in order |
| Scenarios.ParseMultipleNodesExample | tests/parse.test.js:19-31 | Through `ParseTokens`: the expected tree, both nodes reported, and the caller's dictionary extended with ids 0 and 1 |
| Scenarios.TopCall | tests/parse.test.js:48-67 | `(;B[hh](;W[ii])(;W[hi]C[h]))`: the container's child is node 0. Its two children are the variations in source order, nodes 1 and 2 below id 0. Progress is logged for the final `)` only |
| Scenarios.ReadOutVariations | tests/parse.test.js:48-67 | That state reads out as the expected tree and three reports without children |
| Scenarios.ParseVariationsExample | tests/parse.test.js:48-67 | Through `ParseTokens`: one tree, `B` with the children `W[ii]` and `W[hi]C[h]`, the three reports, and one progress value |
| Scenarios.CreationTopCall | tests/parse.test.js:69-106 | `(;B[hh](;W[ii])(;W[hi];C[h]))`: the second variation is a chain of two nodes, and node 3 hangs below node 2 |
| Scenarios.ReadOutCreationOrder | tests/parse.test.js:69-106 | That state reads out as the tree with node 3 below node 2 |
| Scenarios.ReportsOfCreationOrder | tests/parse.test.js:69-106 | `onNodeCreated` received ids 0, 1, 2, 3 in that order, with parents `null`, 0, 0, 2, no children, and `B`, `W`, `W`, `C` as data |
| Scenarios.CreationOrderExample | tests/parse.test.js:69-106 | Through `ParseTokens`: the four reports the test expects, in that order, and the tree |
| Scenarios.OutsideCall | src/parse.js:7-99 | `;B[hh];W[ii]` at top level: the top-level call returns node 0 (`B`), whose only child is node 1 (`W`) |
| Scenarios.ReadOutOutside | src/parse.js:112-119 | That state reads out as the one tree `W[ii]` below id 0, with both nodes reported |
| Scenarios.OutsideAGameExample | src/parse.js:101-120 | Through `ParseTokens`, `;B[hh];W[ii]` returns only the `W` node, below id 0. The `B` node it is a child of is reported but not returned |
| Scenarios.MissingSemicolonCall | src/parse.js:7-99 | `B[hh];W[ii]` at top level: `B[hh]` before the first `;` is dropped, and the call returns node 0 (`W`) after consuming everything |
| Scenarios.MissingSemicolonExample | src/parse.js:101-120 | Through `ParseTokens`, `B[hh];W[ii]` returns no trees. The `W` node is reported with id 0 |

## Left out

- The tokenizer, `Peekable`, `parse`, `parseBuffer`, `parseFile`, `src/main.js` and `stringify` are not part of this model. The builder reads a finite sequence of tokens through a cursor.
- `unescapeString` is a parameter of the model (`unescape`), because its escape handling lies outside the builder.
- `getId` is a function of how many times it has been called. An allocator with other side effects, or one that returns something other than an integer, is not modelled.
- Dictionary keys are taken to be the ids themselves. JavaScript turns them into strings, so ids such as `1` and `"1"` would share an entry.
- A node's `data` is a Dafny `map`, which has no key order. A JavaScript object keeps its keys in insertion order, and that order is lost here.
- `onNodeCreated` and `onProgress` are recorded as logs. A callback that changes the node or throws is not modelled. A report records the node as it is at that moment, while JavaScript passes a live reference that later updates will change.
- Upper-casing covers ASCII letters only. Every other character is treated as its own upper-case form, so the special cases of Unicode case mapping are not modelled.
- Parser.ParseTokens: on an unexpected-token error its own contract says only that the token is unrecognised. That the token is the first one at which the scan stops follows from `Reference.ScanStops`, and is not repeated in that contract.
- Parser.OutputOk: it says every node with an id was reported. With an allocator that repeats an id, two reports can carry the same id, so it does not say each node matches exactly one report. With the default allocator the ids of the reports are 0, 1, 2, …, so they are distinct.
