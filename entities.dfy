/** Values shared by every part of the compiler state arena: handles, spans,
    diagnostics, and the collaborator types the arena stores without looking
    inside them. */
module Entities {

  /** A byte of source text. */
  newtype byte = x: int | 0 <= x < 256

  /** Handles are zero-based indices into their owning arena. */
  datatype NodeId = NodeId(id: nat)
  datatype ScopeId = ScopeId(id: nat)
  datatype VarId = VarId(id: nat)
  datatype DeclId = DeclId(id: nat)
  datatype TypeId = TypeId(id: nat)

  /** Collaborator types defined by the parser, the resolver, the protocol
      layer and the diagnostics layer; the arena only stores them. */
  type AstNode
  type Block
  type Pipeline
  type Frame
  type Variable
  type Command
  type Severity

  /** A half-open byte range `[start, end)` into the concatenated source.
      Like the source's `Span::new`, nothing forces `start <= end`. */
  datatype Span = Span(start: nat, end: nat)

  /** Any value paired with the span it came from. */
  datatype Spanned<T> = Spanned(item: T, span: Span)

  /** A diagnostic anchored at a node. */
  datatype SourceError = SourceError(severity: Severity, nodeId: NodeId, message: string)

  datatype Option<T> = None | Some(value: T)
}
