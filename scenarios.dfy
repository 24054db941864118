/** Clients of the arena that exercise its contracts end to end, the way the
    parser, the resolver and the type checker drive it. */
module Scenarios {
  import opened Entities
  import opened SourceBuffer
  import opened IntLiteral
  import opened Rollback
  import opened CompilerState

  /** The bytes of `let x = 42\n`. */
  const LET_X_42: seq<byte> := [108, 101, 116, 32, 120, 32, 61, 32, 52, 50, 10]

  /** A speculative attempt that fails: checkpoint, push a node with its span
      and a diagnostic anchored to it, then roll back. Whatever the arena held
      before, its spans, nodes, errors and blocks are exactly as they were and
      the checkpointed cursor comes back. */
  method AbandonAttempt(c: Compiler, node: AstNode, span: Span, severity: Severity, tokenPos: nat)
    returns (cursor: nat)
    modifies c`spans, c`astNodes, c`errors, c`blocks
    ensures cursor == tokenPos
    ensures c.TrackedState() == old(c.TrackedState())
  {
    ghost var t0 := c.TrackedState();
    var rp := c.GetRollbackPoint(tokenPos);
    var id := c.PushNode(node);
    c.spans := c.spans + [span];
    c.errors := c.errors + [SourceError(severity, id, "unexpected token")];
    RollbackAfterExtends(t0, c.TrackedState(), tokenPos);
    cursor := c.ApplyCompilerRollback(rp);
  }

  /** Ingest `main`, push a name node over `x`, an integer node over `42` and
      a node wrapping both, then abandon a speculative fourth node with a
      diagnostic on it. Three nodes and no diagnostic remain, the cursor comes
      back, and the next node gets id 3. */
  method SpeculativeParse(nameNode: AstNode, intNode: AstNode, letNode: AstNode, extraNode: AstNode,
                          severity: Severity, tokenPos: nat)
    returns (ids: seq<NodeId>, nodeCount: nat, errorCount: nat, cursor: nat, next: NodeId)
    ensures ids == [NodeId(0), NodeId(1), NodeId(2)]
    ensures nodeCount == 3 && errorCount == 0 && cursor == tokenPos && next == NodeId(3)
  {
    var c := new Compiler();
    c.AddFile("main", LET_X_42);
    var n0 := c.PushNode(nameNode);
    var n1 := c.PushNode(intNode);
    var n2 := c.PushNode(letNode);
    c.spans := [Span(4, 5), Span(8, 10), Span(0, 10)];
    ids := [n0, n1, n2];
    assert |c.astNodes| == 3 && |c.errors| == 0;
    cursor := AbandonAttempt(c, extraNode, Span(10, 11), severity, tokenPos);
    nodeCount, errorCount := |c.astNodes|, |c.errors|;
    next := c.PushNode(extraNode);
  }

  /** In `let x = 42\n`, the name node's span reads back as `x` and the
      integer node's as 42. */
  method LiteralText(nameNode: AstNode, intNode: AstNode) returns (name: seq<byte>, value: int)
    ensures name == [120] && value == 42
  {
    var c := new Compiler();
    c.AddFile("main", LET_X_42);
    var n0 := c.PushNode(nameNode);
    var n1 := c.PushNode(intNode);
    c.spans := [Span(4, 5), Span(8, 10)];
    assert c.source == LET_X_42;
    name := c.GetSpanContents(n0);
    assert name == [120] by { assert |name| == 1 && name[0] == LET_X_42[4]; }
    var text := c.GetSpanContents(n1);
    assert text == [52, 50] by { assert |text| == 2 && text[0] == LET_X_42[8] && text[1] == LET_X_42[9]; }
    ParseFortyTwo();
    value := c.NodeAsI64(n1);
  }

  /** `add_file("a", b)` then `add_file("c", d)`: the buffer is `b` then `d`,
      and the two ranges are `[0, |b|)` and `[|b|, |b| + |d|)`. */
  method TwoFiles(b: seq<byte>, d: seq<byte>) returns (source: seq<byte>, offsets: seq<FileOffset>)
    ensures source == b + d
    ensures offsets == [FileOffset("a", 0, |b|), FileOffset("c", |b|, |b| + |d|)]
    ensures source[offsets[0].start..offsets[0].end] == b
    ensures source[offsets[1].start..offsets[1].end] == d
  {
    var c := new Compiler();
    c.AddFile("a", b);
    c.AddFile("c", d);
    source, offsets := c.source, c.fileOffsets;
    LayoutSlice(c.fileOffsets, c.files, c.source, 0);
    LayoutSlice(c.fileOffsets, c.files, c.source, 1);
  }

  /** Merging the same name bindings twice duplicates every sequence
      rather than deduplicating; the maps hold the bundle's entries once. */
  method MergeTwice(nb: NameBindings)
    returns (scope: seq<Frame>, scopeStack: seq<ScopeId>, variables: seq<Variable>, decls: seq<Command>,
             errors: seq<SourceError>, varResolution: map<NodeId, VarId>, declResolution: map<NodeId, DeclId>)
    ensures scope == nb.scope + nb.scope && |scope| == 2 * |nb.scope|
    ensures scopeStack == nb.scopeStack + nb.scopeStack
    ensures variables == nb.variables + nb.variables
    ensures decls == nb.decls + nb.decls
    ensures errors == nb.errors + nb.errors
    ensures varResolution == nb.varResolution
    ensures declResolution == nb.declResolution
  {
    var c := new Compiler();
    c.MergeNameBindings(nb);
    c.MergeNameBindings(nb);
    scope, scopeStack, variables, decls := c.scope, c.scopeStack, c.variables, c.decls;
    errors, varResolution, declResolution := c.errors, c.varResolution, c.declResolution;
  }

  /** Diagnostics keep recording order across stages: one pushed while
      parsing, one merged with the name bindings, one merged with the types. */
  method DiagnosticOrder(e1: SourceError, e2: SourceError, e3: SourceError, nb: NameBindings, types: TypeBundle)
    returns (errors: seq<SourceError>, nodeTypes: seq<TypeId>)
    requires nb.errors == [e2] && types.errors == [e3]
    ensures errors == [e1, e2, e3]
    ensures nodeTypes == types.nodeTypes
  {
    var c := new Compiler();
    c.errors := c.errors + [e1];
    c.MergeNameBindings(nb);
    c.MergeTypes(types);
    errors, nodeTypes := c.errors, c.nodeTypes;
  }
}
