# Compiler state arena of new-nu-parser, modelled in Dafny

This project models the `Compiler` struct of `src/compiler.rs`. It is the single owner of the state that every front-end pass shares:

- the concatenated source bytes and the `(name, start, end)` record of each ingested file;
- the arenas of AST nodes, spans, type slots, blocks and pipelines;
- the name-binding store: scopes, the scope stack, variables, declarations, and the two resolution maps from a name node to the variable or declaration it names;
- the ordered list of diagnostics.

Three mechanisms act on this state, and all three are modelled:

- **Checkpoint and rollback.** A backtracking parser records the span, node, error and block counts plus its token cursor. It later truncates back to those counts.
- **Merges.** The resolver and the type checker hand over self-contained result bundles. The merge methods append them to the arena.
- **Span accessors.** They recover a node's literal text and read integer literals out of it.

Files and modules:

- `entities.dfy` (`Entities`): handles (`NodeId`, `ScopeId`, `VarId`, `DeclId`, `TypeId`), `Span`, `Spanned`, `SourceError`, and the byte type. The parser, resolver, protocol and diagnostics types (`AstNode`, `Block`, `Pipeline`, `Frame`, `Variable`, `Command`, `Severity`) are opaque types. `Span::new` and `Spanned::new` are the datatype constructors `Span` and `Spanned`.
- `maps.dfy` (`Maps`): `Extend`, the `HashMap::extend` used on the resolution maps.
- `source_buffer.dfy` (`SourceBuffer`): the file-offset record and `Layout`, the invariant tying `file_offsets` to the files ingested so far.
- `int_literal.dfy` (`IntLiteral`): Rust's `str::parse::<i64>` as `parse` in `node_as_i64` uses it. This covers sign handling, rejection of a lone sign, and checked overflow at each digit. A positional reference definition of the value comes with it.
- `rollback.dfy` (`Rollback`): rollback points, truncation, and the rollback-exactness lemmas over any sequence of appends.
- `compiler.dfy` (`CompilerState`): the `Compiler` class. Its fields are the struct's fields. Its methods are the mutating operations, and its functions are the read-only ones. Each mutating method names in its `modifies` clause exactly the fields the Rust method touches, so every other field is unchanged by framing. A ghost field `files` records the contents of each ingested file, and `Valid()` is `Layout(fileOffsets, files, source)`.
- `scenarios.dfy` (`Scenarios`): client methods that drive the class through end-to-end uses.

On these points the model follows the code:

- `Span::new` does not enforce `start <= end`, so `Span` is a plain pair. The span accessors require the ordering at the point of use, where the Rust `get(start..end)` would otherwise panic.
- `Vec::truncate(n)` does nothing when the vector has at most `n` elements. So `ApplyCompilerRollback` has no precondition on the current lengths. Rolling back to a point with larger counts leaves those sequences unchanged (`Rollback.RestoreLongerIsNoOp`).
- `apply_compiler_rollback` does not truncate `pipelines`, even though blocks and pipelines are both speculative structures. The model keeps `pipelines` unchanged across a rollback.
- Merges offset no ids. The bundle's `ScopeId`/`VarId`/`DeclId` values are stored exactly as they are (`Scenarios.MergeTwice`).
- Nothing keeps `spans` the same length as `ast_nodes`. `push_node` pushes no span, and the parser appends spans to the public field itself. The scenarios do this with direct field assignments.

Each Rust `expect` or out-of-range index panic is a `requires` clause.

## Model

| member | source | states |
|---|---|---|
| `CompilerState.Compiler.constructor` | src/compiler.rs:85-111 | Every sequence and both maps start empty; the empty buffer with no files satisfies the layout invariant. |
| `CompilerState.Compiler.MergeNameBindings` | src/compiler.rs:155-163 | Scopes, scope stack, variables, declarations and errors each become the old sequence followed by the bundle's, in bundle order, with no deduplication. Each resolution map becomes the old map extended by the bundle's, with no id offset. Its frame admits no other field. |
| `CompilerState.Compiler.MergeTypes` | src/compiler.rs:165-168 | Type slots and errors become the old sequence followed by the bundle's; its frame admits no other field. |
| `Maps.Extend` | src/compiler.rs:159-161 | The key set is the union of both maps. A key in the bundle maps to the bundle's value. Any other key keeps its old value. |
| `CompilerState.Compiler.AddFile` | src/compiler.rs:170-177 | The buffer becomes old buffer ++ contents. One entry `(fname, old length, old length + |contents|)` is appended to `fileOffsets`. The layout invariant is kept, and its frame admits no other field. |
| `SourceBuffer.LayoutAppend` | src/compiler.rs:170-177 | Appending a file's bytes and recording the range `[old length, new length)` preserves the layout invariant. |
| `SourceBuffer.LayoutConcat` | src/compiler.rs:170-177 | Under the layout, the buffer is exactly the ingested files concatenated in call order. |
| `SourceBuffer.LayoutSlice` | src/compiler.rs:170-177 | Under the layout, every recorded range lies inside the buffer and holds exactly that file's bytes. |
| `SourceBuffer.LayoutOrdered` | src/compiler.rs:170-177 | Under the layout, ranges are in call order and never overlap: an earlier file ends no later than a later one starts. |
| `SourceBuffer.LayoutContiguous` | src/compiler.rs:170-177 | Under the layout, the first file starts at 0 and each file's range ends exactly where the next file's begins. |
| `SourceBuffer.LayoutEnd` | src/compiler.rs:170-181 | Under the layout, the buffer length is where the last file ends, or zero when no file has been added. |
| `CompilerState.Compiler.SpanOffset` | src/compiler.rs:179-181 | The offset the next file will start at: the end of the last file's range, or 0 before any file. |
| `CompilerState.Compiler.GetNode` | src/compiler.rs:183-185 | Requires the id to be inside the node arena (Rust's index panics otherwise); returns the node at that index. |
| `CompilerState.Compiler.PushNode` | src/compiler.rs:191-195 | Returns `NodeId(old node count)`. The node sequence grows by exactly that node, so `GetNode` on the returned id gives it back. Only the node arena may change; no span is pushed. |
| `CompilerState.Compiler.GetRollbackPoint` | src/compiler.rs:197-205 | Reads only the state. It captures exactly the span, node, error and block counts and the given token position. |
| `CompilerState.Compiler.ApplyCompilerRollback` | src/compiler.rs:207-214 | Blocks, nodes, errors and spans are each truncated to the captured count, a no-op when already no longer. Returns the captured token position. Its frame is only those four fields, so pipelines, type slots, source, file offsets, name bindings and maps are unchanged. |
| `Rollback.Truncate` | src/compiler.rs:208-211 | The result is a prefix of the input, of length the captured count or the whole length when that is smaller. |
| `Rollback.ApplyAllExtends` | src/compiler.rs:191-195 | Any sequence of node, span, error and block appends leaves each old sequence a prefix of the new one. |
| `Rollback.RollbackAfterExtends` | src/compiler.rs:197-214 | From any state extending the checkpointed one, rollback restores the four sequences exactly. |
| `Rollback.RollbackExact` | src/compiler.rs:191-214 | Checkpoint, then any appends, then rollback gives back the checkpointed spans, nodes, errors and blocks exactly. So the node count equals the captured one, and the next `push_node` returns it. The cursor handed back is the one passed to the checkpoint. |
| `Rollback.RestoreIdempotent` | src/compiler.rs:207-214 | Rolling back twice to the same point is the same as rolling back once. |
| `Rollback.RestoreLongerIsNoOp` | src/compiler.rs:207-214 | Rolling back to counts no smaller than the current lengths changes nothing. |
| `CompilerState.Compiler.GetSpan` | src/compiler.rs:216-222 | Requires the node to have a span (the `expect("missing span of node")`); returns the span at that index. |
| `CompilerState.Compiler.GetSpanContentsManual` | src/compiler.rs:232-237 | Requires `start <= end <= |source|`, the range `source.get` accepts. Returns `end - start` bytes, byte `k` being `source[start + k]`. |
| `CompilerState.Compiler.GetSpanContents` | src/compiler.rs:216-230 | Requires the node to have a span and the span to lie within the buffer. Returns exactly the buffer's bytes `[start, end)` of that span, `end - start` of them. |
| `CompilerState.Compiler.NodeAsI64` | src/compiler.rs:239-250 | Requires the span text to parse as an i64. The result fits in an i64, and the span text is its decimal text: digits, or a sign then digits. |
| `IntLiteral.ParseI64Correct` | src/compiler.rs:245-250 | `parse::<i64>` returns `v` exactly when the text is an optional `+`/`-` followed by one or more ASCII digits whose value is `v`, and `v` lies in `[-2^63, 2^63 - 1]`. Both directions. |
| `IntLiteral.AccumulateValue` | src/compiler.rs:247-249 | Over a run of digits, the checked multiply-and-add loop yields the positional value with the literal's sign. It fails exactly when that value leaves the i64 range. |
| `IntLiteral.AccumulateRejectsNonDigit` | src/compiler.rs:247-249 | The digit loop succeeds only if every remaining byte is an ASCII digit. |
| `IntLiteral.ParseFortyTwo` | src/compiler.rs:245-250 | The bytes `"42"` read as 42. |
| `Scenarios.AbandonAttempt` | src/compiler.rs:191-214 | From any arena state: checkpoint, push a node, a span and a diagnostic, then roll back. Spans, nodes, errors and blocks equal their values before the checkpoint, and the cursor passed in comes back. |
| `Scenarios.SpeculativeParse` | src/compiler.rs:170-214 | Ingest `let x = 42\n` and push three nodes, getting ids 0, 1, 2. Checkpoint, push a fourth node and a diagnostic, then roll back. Three nodes and no diagnostics remain, the cursor comes back, and the next node gets id 3. |
| `Scenarios.LiteralText` | src/compiler.rs:224-250 | In `let x = 42\n`, the span 4..5 reads back as `x` and the span 8..10 as the integer 42. |
| `Scenarios.TwoFiles` | src/compiler.rs:170-177 | `add_file("a", b)` then `add_file("c", d)` gives buffer `b ++ d` and ranges `[0, |b|)` and `[|b|, |b| + |d|)`, each holding its file's bytes. |
| `Scenarios.MergeTwice` | src/compiler.rs:155-163 | Merging the same bundle twice into an empty arena duplicates every sequence (scopes, scope stack, variables, declarations, errors; lengths double). Both resolution maps hold the bundle's entries once. |
| `Scenarios.DiagnosticOrder` | src/compiler.rs:155-168 | A diagnostic recorded while parsing, one merged with name bindings and one merged with types come out in that order. |

## Left out

- `print` and `display_state` (src/compiler.rs:113-153): console output and `Debug` formatting of opaque types, not state logic.
- `node_as_str` (src/compiler.rs:239-243): the UTF-8 validity check is not modelled. `NodeAsI64` reads the bytes directly, because text `parse::<i64>` accepts is ASCII and therefore valid UTF-8.
- `get_node_mut` (src/compiler.rs:187-189): it hands out a mutable borrow. Model clients assign `astNodes` directly instead.
- `Default`, `Clone` and the derived `Debug`/`PartialEq` impls (src/compiler.rs:16, 28, 40, 78-82): compiler-derived, no logic.
- Internals of `AstNode`, `Block`, `Pipeline`, `Frame`, `Variable`, `Command` and `Severity`: defined in other modules (`parser`, `resolver`, `protocol`, `errors`) that are not part of this model.
- `usize` bounds: lengths and offsets are unbounded `nat`. In-memory vectors cannot reach `usize::MAX`, so no wrap-around is reachable.
- `HashMap` hashing and iteration order: the resolution maps are Dafny `map`s, and only the content of `extend` is modelled.
- The `Rollback.Append` steps cover the four sequences a rollback acts on. Appends to other fields (pipelines, type slots) do not touch those four sequences, and `ApplyCompilerRollback` states that it leaves those fields unchanged.
