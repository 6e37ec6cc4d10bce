# rust-analyzer grammar core, modelled in Dafny

This project models the top-level grammar module of rust-analyzer's parser
(`crates/parser/src/grammar.rs`). The parser reads the token stream once, left
to right, and writes an event log: open a node, close it, consume a token,
report an error. The file defines:

- the entry points that start a parse: a whole source file, the statements or
  items of a macro expansion, and one fragment of a given kind;
- the table that picks the rule able to re-parse one node of an edited tree on
  its own;
- the shared low-level rules: visibility modifiers, `as` renames, `extern`
  calling conventions, return types, names, name references, lifetimes, and a
  brace-delimited error region.

Files:

- `syntax.dfy` (module `Syntax`): token and node kinds, and the raw token
  stream. A kind is a code (`Kind`); the kinds this file mentions are named
  constants, and any other code stands for a kind it never names. `::` and
  `->` are each two joint raw tokens.
- `events.dfy` (module `Events`): the event log. It measures nesting depth and
  consumed tokens, and defines what it means to append a well-nested segment
  or exactly one node.
- `parser.dfy` (module `Parsing`): the `Parser` class, whose `pos` and
  `events` fields its methods update in place. Each method is specified by a
  step function on a `Progress` value (cursor and log). Lemmas say what each
  step preserves (`Keeps`): the cursor never moves back, the log only grows by
  a well-nested segment, and consumed tokens stay accounted for.
- `grammar.dfy` (module `Grammar`): each grammar primitive as a method on the
  parser, next to a function `…Run` giving its exact effect. Lemmas state the
  shape of the events each primitive emits in each case.
- `entry.dfy` (modules `EntryTop`, `EntryPrefix`): the entry points.
- `reparse.dfy` (module `Reparse`): the reparsing dispatch table.

The grammar rules of the other modules, such as paths, types, expressions,
items, patterns and attributes, are called from this file but are not part of
this model. They are a parameter of the parser: `callees(rule, position)`
gives the tokens that rule consumes and the events it appends. A callee is
*honest* when its events are well nested and account for exactly the tokens
it consumes. A placeholder `Start` whose kind is still unknown opens nothing,
so a callee that abandons a marker, leaving its placeholder in the log, can
still be honest. The lemmas that need this assume it (`CalleesHonest`).

## Model

| member | source | states |
|---|---|---|
| Parsing.TokenAt | crates/parser/src/grammar.rs:238 | the raw kind past the end of input is `Eof`; a token of an ordinary kind is one raw token of that kind; `::` and `->` are two raw tokens, the first joint to the second; nothing but `Eof` starts past the end |
| Parsing.Lookahead | crates/parser/src/grammar.rs:162 | `nth(n)` (n at most 3) and `current` are the raw kinds ahead of the cursor, `Eof` past the end |
| Parsing.TokenAhead | crates/parser/src/grammar.rs:204 | `nth_at(n, k)` and `at(k)` hold iff the raw kind there is `k`, or for `::`/`->` iff both parts are there with the first joint to the second |
| Parsing.Parser.Start | crates/parser/src/grammar.rs:159 | `start` appends a placeholder node opening and returns a marker to it; the cursor does not move |
| Parsing.Parser.Complete | crates/parser/src/grammar.rs:196 | `complete` gives the marked placeholder its kind and closes the node; the marked event must still be an unnamed placeholder |
| Parsing.CompleteUsesMarker | crates/parser/src/grammar.rs:196 | after `complete` the marked event carries the node's kind and is no longer a placeholder, so the same marker cannot be completed twice |
| Parsing.Parser.Bump | crates/parser/src/grammar.rs:160 | `bump(k)` requires `k` to be current and consumes it as one token event (two raw tokens for `::`, `->`) |
| Parsing.Parser.BumpAny | crates/parser/src/grammar.rs:276 | `bump_any` consumes the current raw token whatever its kind, and nothing at the end of input |
| Parsing.Parser.Eat | crates/parser/src/grammar.rs:233 | `eat(k)` returns whether `k` was current and consumes it only then |
| Parsing.Parser.Expect | crates/parser/src/grammar.rs:181 | `expect(k)` consumes `k` if current, otherwise records "expected k"; returns which |
| Parsing.Parser.Error | crates/parser/src/grammar.rs:290 | `error` records a message and consumes nothing |
| Parsing.Parser.ErrAndBump | crates/parser/src/grammar.rs:269 | `err_and_bump` records the message, then consumes one token |
| Parsing.Parser.ErrRecover | crates/parser/src/grammar.rs:255 | `err_recover` records the message, then skips the current token unless it is in the recovery set or is a brace |
| Parsing.Parser.Invoke | crates/parser/src/grammar.rs:180 | calling a rule of another module applies that rule's effect at the current position |
| Parsing.BumpKeeps | crates/parser/src/grammar.rs:160 | a bump keeps the accounting and appends a well-nested segment |
| Parsing.BumpAnyKeeps | crates/parser/src/grammar.rs:276 | `bump_any` advances by exactly one raw token iff not at the end of input |
| Parsing.EatKeeps | crates/parser/src/grammar.rs:233 | `eat(k)` advances iff `k` is current |
| Parsing.ErrorKeeps | crates/parser/src/grammar.rs:290 | `error` leaves the cursor where it is and appends exactly its one error event |
| Parsing.ExpectKeeps | crates/parser/src/grammar.rs:181 | `expect(k)` appends exactly one event, the token or the error in its place, and advances iff `k` is current |
| Parsing.ErrAndBumpKeeps | crates/parser/src/grammar.rs:269 | `err_and_bump` records its error first and advances by exactly one raw token iff not at the end of input |
| Parsing.ErrRecoverKeeps | crates/parser/src/grammar.rs:255 | `err_recover` records its error first, never moves back, and consumes nothing at a recovery token, a brace or the end of input |
| Parsing.InvokeKeeps | crates/parser/src/grammar.rs:180 | an honest rule of another module keeps the accounting and the nesting |
| Parsing.NodeKeeps | crates/parser/src/grammar.rs:159-196 | `start`, well-nested progress, then `complete` appends exactly one node of the completed kind |
| Grammar.BlockLike.IsBlock | crates/parser/src/grammar.rs:150-154 | true exactly for `Block`, false exactly for `NotBlock` |
| Grammar.OptVisibility | crates/parser/src/grammar.rs:156-216 | the effect is `VisibilityRun`; returns true iff `pub` is current, or `crate` not followed by `::` |
| Grammar.OptVisibilityScope | crates/parser/src/grammar.rs:161-195 | the parenthesised scope after `pub`: a path scope, an `in` scope, or nothing |
| Grammar.ScopeKeeps | crates/parser/src/grammar.rs:161-195 | the scope keeps accounting and nesting |
| Grammar.VisibilityNode | crates/parser/src/grammar.rs:156-216 | no visibility: nothing changes; otherwise exactly one VISIBILITY node is appended and input is consumed |
| Grammar.VisibilityCrate | crates/parser/src/grammar.rs:203-213 | `crate` not followed by `::` is a VISIBILITY node over that one token |
| Grammar.VisibilityTupleField | crates/parser/src/grammar.rs:171-182 | in a tuple field, `pub ( ident` with no `:` after the identifier consumes only `pub`, and `(` stays current |
| Grammar.VisibilityPathScope | crates/parser/src/grammar.rs:171-183 | `pub (crate/self/super/ident …)`: `pub`, `(`, the path, then `)` or an error in its place, in one node |
| Grammar.VisibilityInScope | crates/parser/src/grammar.rs:187-192 | `pub (in path)`: `pub`, `(`, `in`, the path, then `)` or an error in its place, in one node |
| Grammar.OptRename | crates/parser/src/grammar.rs:218-227 | the effect is `RenameRun` |
| Grammar.RenameNode | crates/parser/src/grammar.rs:218-227 | without `as` nothing changes; with `as` exactly one RENAME node is appended and input is consumed |
| Grammar.RenameUnderscore | crates/parser/src/grammar.rs:219-225 | `as _` is a RENAME node over exactly those two tokens |
| Grammar.RenameIdent | crates/parser/src/grammar.rs:219-225 | `as ident` is a RENAME node holding `as` and a NAME node over the identifier |
| Grammar.Abi | crates/parser/src/grammar.rs:229-235 | requires `extern`; the effect is `AbiRun` |
| Grammar.AbiShape | crates/parser/src/grammar.rs:229-235 | an ABI node over `extern` and, if present, the string literal after it |
| Grammar.OptRetType | crates/parser/src/grammar.rs:237-247 | the effect is `RetTypeRun`; returns true iff `->` is current |
| Grammar.RetTypeShape | crates/parser/src/grammar.rs:237-247 | without `->` nothing changes; with it, the arrow (two raw tokens) and the type form one RET_TYPE node |
| Grammar.RetTypeNode | crates/parser/src/grammar.rs:237-247 | with an honest type rule, the accounting is kept and `->` yields exactly one RET_TYPE node |
| Grammar.NameR | crates/parser/src/grammar.rs:249-257 | the effect is `NameRRun`: a NAME node on an identifier, `err_recover` otherwise |
| Grammar.Name | crates/parser/src/grammar.rs:259-261 | `name_r` with the empty recovery set |
| Grammar.NameIdent | crates/parser/src/grammar.rs:249-253 | on an identifier, a NAME node over exactly that token |
| Grammar.NameKeeps | crates/parser/src/grammar.rs:249-257 | accounting kept; NAME node iff an identifier; otherwise "expected a name" comes first, and nothing is consumed at a recovery token, brace or end of input |
| Grammar.NameRef | crates/parser/src/grammar.rs:263-271 | the effect is `NameRefRun` |
| Grammar.NameRefShape | crates/parser/src/grammar.rs:263-271 | an identifier becomes a NAME_REF node; anything else records "expected identifier" and, as `err_and_bump` is modelled here, is still consumed as a bare token (nothing at end of input) |
| Grammar.NameRefOrIndex | crates/parser/src/grammar.rs:273-278 | requires an identifier or an integer literal; the effect is `NameRefOrIndexRun` |
| Grammar.NameRefOrIndexShape | crates/parser/src/grammar.rs:273-278 | a NAME_REF node over exactly that one token |
| Grammar.Lifetime | crates/parser/src/grammar.rs:280-285 | requires a lifetime token; the effect is `LifetimeRun` |
| Grammar.LifetimeShape | crates/parser/src/grammar.rs:280-285 | a LIFETIME node over exactly that one token |
| Grammar.ErrorBlock | crates/parser/src/grammar.rs:287-295 | requires `{`; the effect is `ErrorBlockRun` |
| Grammar.ErrorBlockShape | crates/parser/src/grammar.rs:287-295 | one ERROR node: the message before `{`, the block contents, and `}` only if it is there |
| Grammar.ErrorBlockNode | crates/parser/src/grammar.rs:287-295 | with an honest contents rule, exactly one ERROR node is appended and the accounting is kept |
| EntryTop.SourceFile | crates/parser/src/grammar.rs:90-95 | the effect is `SourceFileRun` |
| EntryTop.SourceFileShape | crates/parser/src/grammar.rs:90-95 | an optional shebang, then the module's items, in one SOURCE_FILE node |
| EntryTop.SourceFileNode | crates/parser/src/grammar.rs:90-95 | exactly one SOURCE_FILE node is appended and the accounting is kept |
| EntryTop.StmtsRun | crates/parser/src/grammar.rs:100-107 | the loop stops exactly at the end of input and never moves back or shrinks the log |
| EntryTop.MacroStmts | crates/parser/src/grammar.rs:97-110 | the loop, with `continue` on a stray `;`, has the effect `MacroStmtsRun` |
| EntryTop.StmtsKeeps | crates/parser/src/grammar.rs:100-107 | with an honest statement rule, the loop keeps accounting and nesting |
| EntryTop.MacroStmtsNode | crates/parser/src/grammar.rs:97-110 | ends at the end of input with exactly one MACRO_STMTS node appended |
| EntryTop.StmtsOfSemicolons | crates/parser/src/grammar.rs:100-104 | input made only of `;` becomes one token event per semicolon, with no statement parsed |
| EntryTop.MacroItems | crates/parser/src/grammar.rs:112-116 | the effect is `MacroItemsRun` |
| EntryTop.MacroItemsShape | crates/parser/src/grammar.rs:112-116 | the module items in one MACRO_ITEMS node |
| EntryPrefix.Vis | crates/parser/src/grammar.rs:53-55 | `opt_visibility` outside a tuple field |
| EntryPrefix.Block | crates/parser/src/grammar.rs:57-59 | delegates to the block expression rule |
| EntryPrefix.Stmt | crates/parser/src/grammar.rs:61-63 | delegates to the statement rule, semicolon not allowed, expression preferred |
| EntryPrefix.Pat | crates/parser/src/grammar.rs:65-67 | delegates to the single-pattern rule |
| EntryPrefix.Ty | crates/parser/src/grammar.rs:69-71 | delegates to the type rule |
| EntryPrefix.Expr | crates/parser/src/grammar.rs:72-74 | delegates to the expression rule |
| EntryPrefix.Path | crates/parser/src/grammar.rs:75-77 | delegates to the type path rule |
| EntryPrefix.Item | crates/parser/src/grammar.rs:78-80 | delegates to the item-or-macro rule, stopping on `}` |
| EntryPrefix.MetaItem | crates/parser/src/grammar.rs:81-84 | delegates to the attribute meta rule |
| Reparse.Reparser | crates/parser/src/grammar.rs:120-142 | a rule is chosen iff the node is context-free, a token tree opening with `{`, or an associated-item list inside an impl or trait; the chosen rule builds the node's own kind |
| Reparse.BuildsInjective | crates/parser/src/grammar.rs:125-140 | different rules build different kinds, so the choice is fixed by the kind |
| Reparse.ContextIgnored | crates/parser/src/grammar.rs:126-138 | the eight context-free kinds get their rule whatever the first child and parent |
| Reparse.EveryRuleReached | crates/parser/src/grammar.rs:125-140 | every rule in the table is chosen for the kind it builds |
| Reparse.TokenTreeNeedsBrace | crates/parser/src/grammar.rs:133 | a token tree is re-parsed iff its first child is `{`, and otherwise gets no rule |
| Reparse.AssocItemListNeedsOwner | crates/parser/src/grammar.rs:134-137 | an associated-item list is re-parsed iff its parent is an impl or a trait |

## Left out

- The parser's own implementation (`Parser`, `Marker`, `Event`) is not part of this model. Its operations are modelled from how this file uses them. The lexer and the tree builder are not part of this model either.
- `precede`, forward parents and abandoning a marker are not modelled as operations, because this file does not use them. A marker a callee abandons stays in its log as a placeholder. The nesting measure ignores placeholders, so such a callee can still be honest.
- The grammar rules of the other grammar modules (paths, types, expressions, items, patterns, attributes) are not part of this model. They are a parameter (`callees`). Their effects are assumed honest only in lemmas that say so. `macro_stmts` additionally requires the statement rule to consume input wherever the input has not ended (`StmtAdvances`); without that the loop could run forever.
- Parsing.Parser.ErrRecover: skips at most one token, and that token is not wrapped in an ERROR node. How far the real `err_recover` skips is defined outside this file. The model promises only that it records its error first, never moves back, and stops at a recovery token, a brace or the end of input.
- Parsing.Parser.ErrAndBump: modelled as its documented contract, an error followed by exactly one consumed token (none at the end of input). The implementation in `crates/parser/src/parser.rs`, which is not part of this model, differs in two ways. It does not consume a `{` or `}`, leaving only the error. It wraps the error and the skipped token in an ERROR node. So Grammar.NameRefShape states the modelled events: on a brace it shows the brace consumed, and off an identifier it shows a bare error event and token, not an ERROR node.
- `TokenSet` is a `set<Kind>`; the bitset representation is not modelled.
- Trivia, and how the lexer decides whether two raw tokens are joint, are not modelled. The `joint` bit on each raw token is taken as given.
- Grammar.OptVisibilityScope: the parenthesised scope after `pub` is a separate method. In the source it is inline in `opt_visibility`; the behaviour is the same.
- Token accounting and nesting are stated as `Keeps` lemmas about the step functions, not as a class invariant of `Parser`.
- The reparser returns a rule name (`Rule`), not a function pointer.
