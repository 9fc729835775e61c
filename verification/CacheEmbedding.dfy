/** The cache with the embedder it comes with: bags of words of length one, compared
    by cosine. */
module CacheEmbedding {
  import opened Similarity
  import opened CacheModel

  // What EmbeddingIsUnit says of the embedding of a prompt with tokens.
  ghost predicate UnitBag(v: Vector) {
    v.Sparse? && v.terms != map[] && AllPositive(v.terms) && IsNorm(v, 1.0)
  }

  ghost predicate ComparesByCosine(cfg: Config) {
    forall a, b, na, nb | IsNorm(a, na) && IsNorm(b, nb) ::
      Cosine(a, b, na, nb).Ok? ==> cfg.score(a, b) == Cosine(a, b, na, nb).value
  }

  // Between bags of words scores are from zero to one; one for the same bag.
  lemma BagScores(cfg: Config, a: Vector, b: Vector)
    requires ComparesByCosine(cfg) && UnitBag(a) && UnitBag(b)
    ensures 0.0 <= cfg.score(a, b) <= 1.0
    ensures a == b ==> cfg.score(a, b) == 1.0
    ensures cfg.score(a, b) == 0.0 <==> a.terms.Keys !! b.terms.Keys
  {
    CosineLaws(a, b, 1.0, 1.0);
    SharedTerms(a.terms, b.terms, 1.0, 1.0);
    hide Cosine, IsNorm;
    assert cfg.score(a, b) == Cosine(a, b, 1.0, 1.0).value;
  }

  // With a threshold of at most one, a prompt whose bag is still stored in the
  // scope is never a plain miss: it is answered, unless the numerals of the best
  // entry differ.
  lemma StoredBagIsFound(cfg: Config, c: Cache, prompt: string, scope: Scope, readings: Readings, x: Item)
    requires Sound(c) && ComparesByCosine(cfg) && cfg.threshold <= 1.0 && UnitBag(cfg.embed(prompt))
    requires x in Live(cfg, c.items, scope, readings) && x.scope == scope && x.entry.vector == cfg.embed(prompt)
    ensures !GetStep(cfg, c, prompt, scope, readings).1.Miss?
  {
    BagScores(cfg, cfg.embed(prompt), cfg.embed(prompt));
    BestMeans(cfg, Live(cfg, c.items, scope, readings), scope, cfg.embed(prompt));
    hide Live, Best, UnitBag, ComparesByCosine;
  }
}
