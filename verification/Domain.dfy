/** Shared vocabulary (internal/domain): the chunk a content is cut into, and the byte budgets
    the chunker and the embedder must agree on. */
module Domain {
  import opened Bytes

  const BYTES_PER_TOKEN := 4
  const TEMPLATE_RESERVE_BYTES := 256
  const MIN_CEILING_TOKENS := (TEMPLATE_RESERVE_BYTES + 64) / BYTES_PER_TOKEN

  datatype Chunk = Chunk(ordinal: nat, text: Str, headingPath: Str, byteStart: nat, byteEnd: nat)

  /** EmbeddingSpec: the model, the templates its input is composed with, and its input ceiling. */
  datatype Spec = Spec(model: Str, queryTemplate: Str, passageTemplate: Str, ceilingTokens: int)
}
