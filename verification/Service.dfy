/** One search request (internal/search/service.go): what is refused, and what the answer is when it is
    not. */
module Service {
  import opened Bytes
  import opened Text
  import opened Domain
  import opened Catalog
  import opened Assembly
  import Embedding

  datatype Request = Request(query: Str, limit: int, mode: Str)

  /** "hybrid" and "semantic". */
  const HYBRID: Str := [104, 121, 98, 114, 105, 100]
  const SEMANTIC: Str := [115, 101, 109, 97, 110, 116, 105, 99]

  datatype Refusal = InvalidRequest | NotIndexed | IndexMismatch | EmbedderFailed | StoreFailed

  datatype Reply = Hits(contents: seq<ContentHit>) | Refused(why: Refusal)

  /** The limit a request is answered with. */
  function EffectiveLimit(r: Request): int { if r.limit == 0 then DEFAULT_LIMIT else r.limit }

  predicate ValidRequest(r: Request) {
    && !Blank(r.query) && (r.mode == [] || r.mode == HYBRID || r.mode == SEMANTIC)
    && 1 <= EffectiveLimit(r) <= MAX_LIMIT
  }

  method Validate(r: Request) returns (limit: Option<nat>)
    ensures limit.Some? <==> ValidRequest(r)
    ensures limit.Some? ==> limit.value == EffectiveLimit(r)
  {
    if Blank(r.query) {
      return None;
    }
    if r.mode != [] && r.mode != HYBRID && r.mode != SEMANTIC {
      return None;
    }
    var n := r.limit;
    if n == 0 {
      n := DEFAULT_LIMIT;
    }
    if n < 1 || n > MAX_LIMIT {
      return None;
    }
    return Some(n);
  }

  /** CheckLength: the embedder's own guard, asked before the index is read. */
  predicate TooLong(e: Embedder, query: Str) {
    !Embedding.PassesGuard(e, Embedding.ComposeQuery(e, query))
  }

  /** CurrentVecSpec: the embedding identity of the current generation, and its dimensions. */
  function CurrentSpec(t: Tables): Option<(Embedder, nat)> {
    if t.current.None? || t.current.value !in t.gens then None
    else
      var d := t.gens[t.current.value].desc;
      Some((Spec(d.model, d.queryTemplate, d.passageTemplate, 0), d.dims))
  }

  predicate Compatible(indexed: Embedder, configured: Embedder) {
    indexed == configured.(ceilingTokens := 0)
  }

  /** What the gate lets through: a generation of this process's vector space, if it is a float32 cosine
      one, as every generation minted since the metric was recorded is. */
  lemma CompatibleIsIdentity(t: Tables, e: Embedder, dims: nat)
    requires t.current.Some? && t.current.value in t.gens
    requires var d := t.gens[t.current.value].desc.Normalized(); d.layout == FLOAT32 && d.metric == COSINE
    ensures CurrentSpec(t).Some?
    ensures Compatible(CurrentSpec(t).value.0, e) && CurrentSpec(t).value.1 == dims
       <==> t.gens[t.current.value].desc.Identity() == Wanted(e, dims).Identity()
  {
    var d := t.gens[t.current.value].desc;
    assert d.Identity() == d.Normalized().(ceilingTokens := 0);
  }

  /** The three reads of the index one request makes, each its own snapshot. */
  datatype Snapshots = Snapshots(spec: Tables, first: Tables, retry: Tables)

  /** The answer over one snapshot's nearest MAX_KNN_K chunks. */
  ghost predicate AnswersFrom(reply: Reply, t: Tables, distance: Vector -> real, limit: nat)
    requires Inv(t)
  {
    reply == Hits(Answer(t, distance, MAX_KNN_K, limit))
  }

  /** Why a vector query over this snapshot fails: the generation is gone, or of another width. */
  function Unreadable(t: Tables, vector: Vector): Option<Refusal> {
    match CurrentSpec(t)
    case None => Some(NotIndexed)
    case Some(spec) => if |vector| == spec.1 then None else Some(StoreFailed)
  }

  /** Search. `vector` is the embedded query, None when the endpoint failed. */
  method Search(e: Embedder, r: Request, snap: Snapshots, vector: Option<Vector>, distance: Vector -> Vector -> real)
    returns (reply: Reply)
    requires Inv(snap.spec) && Inv(snap.first) && Inv(snap.retry)
    ensures reply == Refused(InvalidRequest) <==> !ValidRequest(r) || TooLong(e, r.query)
    ensures reply.Hits? ==>
              && CurrentSpec(snap.spec).Some? && Compatible(CurrentSpec(snap.spec).value.0, e)
              && vector.Some? && |vector.value| == CurrentSpec(snap.spec).value.1
              && (AnswersFrom(reply, snap.first, distance(vector.value), EffectiveLimit(r))
                  || AnswersFrom(reply, snap.retry, distance(vector.value), EffectiveLimit(r)))
    ensures ValidRequest(r) && !TooLong(e, r.query) && snap.first == snap.spec && snap.retry == snap.spec
            && CurrentSpec(snap.spec).Some? && Compatible(CurrentSpec(snap.spec).value.0, e)
            && vector.Some? && |vector.value| == CurrentSpec(snap.spec).value.1
            ==> AnswersFrom(reply, snap.spec, distance(vector.value), EffectiveLimit(r))
  {
    hide Inv, Answer, Blank, TooLong;
    var limit := Validate(r);
    if limit.None? || TooLong(e, r.query) {
      return Refused(InvalidRequest);
    }
    var spec := CurrentSpec(snap.spec);
    if spec.None? {
      return Refused(NotIndexed);
    }
    if !Compatible(spec.value.0, e) {
      return Refused(IndexMismatch);
    }
    if vector.None? {
      return Refused(EmbedderFailed);
    }
    if |vector.value| != spec.value.1 {
      return Refused(IndexMismatch);
    }
    var contents, retried := OverFetch(snap.first, snap.retry, distance(vector.value), limit.value);
    var failure := Unreadable(snap.first, vector.value);
    if failure.None? && retried {
      failure := Unreadable(snap.retry, vector.value);
    }
    return if failure.Some? then Refused(failure.value) else Hits(contents);
  }
}
