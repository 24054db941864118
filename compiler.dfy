/** The compiler state arena: the single owner of the source buffer, the
    node, span, type, block and pipeline arenas, the name-binding store and
    the diagnostics. */
module CompilerState {
  import opened Entities
  import opened SourceBuffer
  import opened IntLiteral
  import opened Rollback
  import opened Maps

  /** The resolver's result bundle, merged into the arena once. */
  datatype NameBindings = NameBindings(
    scope: seq<Frame>,
    scopeStack: seq<ScopeId>,
    variables: seq<Variable>,
    varResolution: map<NodeId, VarId>,
    decls: seq<Command>,
    declResolution: map<NodeId, DeclId>,
    errors: seq<SourceError>)

  /** The type checker's result bundle, the Rust `Types` struct; only the
      two fields the merge reads are modelled. */
  datatype TypeBundle = TypeBundle(nodeTypes: seq<TypeId>, errors: seq<SourceError>)

  class Compiler {
    // Indexed by NodeId.
    var spans: seq<Span>
    var astNodes: seq<AstNode>
    var nodeTypes: seq<TypeId>
    var blocks: seq<Block>
    var pipelines: seq<Pipeline>
    var source: seq<byte>
    var fileOffsets: seq<FileOffset>

    // Name bindings.
    var scope: seq<Frame>
    var scopeStack: seq<ScopeId>
    var variables: seq<Variable>
    var varResolution: map<NodeId, VarId>
    var decls: seq<Command>
    var declResolution: map<NodeId, DeclId>

    var errors: seq<SourceError>

    /** The contents of every file ingested so far, in call order. */
    ghost var files: seq<seq<byte>>

    /** The source buffer is the ingested files laid end to end, and
        `fileOffsets` records where each one went. */
    ghost predicate Valid()
      reads this`fileOffsets, this`files, this`source
    {
      Layout(fileOffsets, files, source)
    }

    /** The four sequences a rollback acts on, as one value. */
    function TrackedState(): (t: Tracked)
      reads this`spans, this`astNodes, this`errors, this`blocks
    {
      Tracked(spans, astNodes, errors, blocks)
    }

    constructor ()
      ensures Valid()
      ensures spans == [] && astNodes == [] && nodeTypes == [] && blocks == [] && pipelines == []
      ensures source == [] && fileOffsets == [] && files == []
      ensures scope == [] && scopeStack == [] && variables == [] && decls == [] && errors == []
      ensures varResolution == map[] && declResolution == map[]
    {
      spans, astNodes, nodeTypes, blocks, pipelines := [], [], [], [], [];
      source, fileOffsets, files := [], [], [];
      scope, scopeStack, variables, decls, errors := [], [], [], [], [];
      varResolution, declResolution := map[], map[];
    }

    /** Appends every sequence of the bundle to the arena's and folds its
        maps in; the bundle's entry wins on a key both maps hold. No id is
        offset: the bundle's ids are stored as they are. Only the
        name-binding fields and the errors change. */
    method MergeNameBindings(nb: NameBindings)
      modifies this`scope, this`scopeStack, this`variables, this`varResolution, this`decls, this`declResolution, this`errors
      ensures scope == old(scope) + nb.scope
      ensures scopeStack == old(scopeStack) + nb.scopeStack
      ensures variables == old(variables) + nb.variables
      ensures decls == old(decls) + nb.decls
      ensures errors == old(errors) + nb.errors
      ensures varResolution == Extend(old(varResolution), nb.varResolution)
      ensures declResolution == Extend(old(declResolution), nb.declResolution)
    {
      scope, scopeStack, variables := scope + nb.scope, scopeStack + nb.scopeStack, variables + nb.variables;
      varResolution := varResolution + nb.varResolution;
      decls := decls + nb.decls;
      declResolution := declResolution + nb.declResolution;
      errors := errors + nb.errors;
    }

    /** Appends the bundle's type slots and diagnostics; nothing else changes. */
    method MergeTypes(types: TypeBundle)
      modifies this`nodeTypes, this`errors
      ensures nodeTypes == old(nodeTypes) + types.nodeTypes
      ensures errors == old(errors) + types.errors
    {
      nodeTypes := nodeTypes + types.nodeTypes;
      errors := errors + types.errors;
    }

    /** Ingests a file: its bytes go at the end of the buffer and its range
        `[old length, new length)` is recorded under its name. Only the
        source buffer and its file record change. */
    method AddFile(fname: string, contents: seq<byte>)
      requires Valid()
      modifies this`fileOffsets, this`source, this`files
      ensures Valid()
      ensures source == old(source) + contents
      ensures fileOffsets == old(fileOffsets) + [FileOffset(fname, |old(source)|, |old(source)| + |contents|)]
      ensures files == old(files) + [contents]
    {
      var spanOffset := |source|;
      LayoutAppend(fileOffsets, files, source, fname, contents);
      fileOffsets, source, files := fileOffsets + [FileOffset(fname, spanOffset, spanOffset + |contents|)],
                                    source + contents, files + [contents];
    }

    /** The offset the next ingested file will start at: the end of the
        last file, or zero before any file. */
    function SpanOffset(): (n: nat)
      reads this
      requires Valid()
      ensures fileOffsets == [] ==> n == 0
      ensures fileOffsets != [] ==> n == fileOffsets[|fileOffsets| - 1].end
    {
      LayoutEnd(fileOffsets, files, source);
      |source|
    }

    /** The node with the given id; an id outside the arena is a fatal error. */
    function GetNode(nodeId: NodeId): (n: AstNode)
      reads this
      requires nodeId.id < |astNodes|
      ensures n == astNodes[nodeId.id]
    {
      astNodes[nodeId.id]
    }

    /** Appends a node and returns its id, the node count before the call.
        Only the node arena changes; in particular no span is pushed. */
    method PushNode(node: AstNode) returns (nodeId: NodeId)
      modifies this`astNodes
      ensures nodeId == NodeId(|old(astNodes)|)
      ensures astNodes == old(astNodes) + [node]
      ensures nodeId.id < |astNodes| && GetNode(nodeId) == node
    {
      astNodes := astNodes + [node];
      nodeId := NodeId(|astNodes| - 1);
    }

    /** A checkpoint: the span, node, error and block counts now, and the
        caller's token position. */
    function GetRollbackPoint(tokenPos: nat): (rp: RollbackPoint)
      reads this
      ensures rp.idxSpanStart == |spans| && rp.idxNodes == |astNodes|
      ensures rp.idxErrors == |errors| && rp.idxBlocks == |blocks|
      ensures rp.tokenPos == tokenPos
      ensures rp == Checkpoint(TrackedState(), tokenPos)
    {
      RollbackPoint(|spans|, |astNodes|, |errors|, |blocks|, tokenPos)
    }

    /** Truncates blocks, nodes, errors and spans to the checkpoint's counts
        (a count above the current length leaves that sequence alone) and
        returns the checkpoint's token position. Only those four sequences
        change: pipelines, type slots, the source buffer and the name
        bindings are left as they are. */
    method ApplyCompilerRollback(rbp: RollbackPoint) returns (tokenPos: nat)
      modifies this`blocks, this`astNodes, this`errors, this`spans
      ensures tokenPos == rbp.tokenPos
      ensures blocks == Truncate(old(blocks), rbp.idxBlocks)
      ensures astNodes == Truncate(old(astNodes), rbp.idxNodes)
      ensures errors == Truncate(old(errors), rbp.idxErrors)
      ensures spans == Truncate(old(spans), rbp.idxSpanStart)
      ensures TrackedState() == Restore(old(TrackedState()), rbp)
    {
      blocks := Truncate(blocks, rbp.idxBlocks);
      astNodes := Truncate(astNodes, rbp.idxNodes);
      errors := Truncate(errors, rbp.idxErrors);
      spans := Truncate(spans, rbp.idxSpanStart);
      tokenPos := rbp.tokenPos;
    }

    /** The span of a node; a node without a span is a fatal error. */
    function GetSpan(nodeId: NodeId): (s: Span)
      reads this
      requires nodeId.id < |spans|
      ensures s == spans[nodeId.id]
    {
      spans[nodeId.id]
    }

    /** The source bytes `[spanStart, spanEnd)`; a reversed range or one
        running past the buffer is a fatal error. */
    function GetSpanContentsManual(spanStart: nat, spanEnd: nat): (r: seq<byte>)
      reads this
      requires spanStart <= spanEnd <= |source|
      ensures |r| == spanEnd - spanStart
      ensures forall k :: 0 <= k < |r| ==> r[k] == source[spanStart + k]
    {
      source[spanStart..spanEnd]
    }

    /** The source bytes a node's span covers. */
    function GetSpanContents(nodeId: NodeId): (r: seq<byte>)
      reads this
      requires nodeId.id < |spans|
      requires spans[nodeId.id].start <= spans[nodeId.id].end <= |source|
      ensures |r| == spans[nodeId.id].end - spans[nodeId.id].start
      ensures forall k :: 0 <= k < |r| ==> r[k] == source[spans[nodeId.id].start + k]
    {
      var span := GetSpan(nodeId);
      GetSpanContentsManual(span.start, span.end)
    }

    /** The integer a literal node's text denotes; text that is not a
        decimal i64 literal is a fatal error. */
    function NodeAsI64(nodeId: NodeId): (v: int)
      reads this
      requires nodeId.id < |spans|
      requires spans[nodeId.id].start <= spans[nodeId.id].end <= |source|
      requires ParseI64(GetSpanContents(nodeId)).Some?
      ensures InI64(v)
      ensures IsDecimalText(GetSpanContents(nodeId), v)
      ensures ParseI64(GetSpanContents(nodeId)) == Some(v)
    {
      var r := ParseI64(GetSpanContents(nodeId));
      ParseI64Correct(GetSpanContents(nodeId), r.value);
      r.value
    }
  }
}
