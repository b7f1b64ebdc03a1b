/** The memory store (`OrbitMemory`): an append-only bank of (id, text, embedding)
    records, insertion through the feature-extraction pipeline, and top-K search by
    similarity. Persistence to host storage is not part of this model. */
module Memory {
  import opened Tasks
  import opened Pipelines
  import opened Host
  import opened Ranking

  datatype MemoryRecord = MemoryRecord(id: string, text: string, embedding: seq<real>)

  /** The memory bank in insertion order. */
  type Bank = seq<MemoryRecord>

  /** `search`'s default `topK`. */
  const DefaultTopK := 3

  /** An embedding and the pipeline cache left by computing it. */
  datatype Embedded<H> = Embedded(vector: seq<real>, cache: Cache<H>)

  /** What `add` and `search` do first: load the feature-extraction pipeline and run
      `text` through it with mean pooling and normalisation. */
  function Embed<H, R>(cache: Cache<H>, text: string, host: Host<H, R>): (r: Embedded<H>)
    ensures r.cache == LoadModel(cache, FeatureExtraction, host.pipeline).cache
    ensures FeatureExtraction in r.cache && Extends(cache, r.cache)
    ensures r.cache.Keys == cache.Keys + {FeatureExtraction}
    ensures FeatureExtraction in cache ==> r.cache == cache
    ensures r.vector == host.tensorData(host.invoke(r.cache[FeatureExtraction], text, ExtractionOptions("mean", true)))
  {
    var loaded := LoadModel(cache, FeatureExtraction, host.pipeline);
    var output := Run(loaded.cache, FeatureExtraction, text, host.invoke).value;
    Embedded(host.tensorData(output), loaded.cache)
  }

  /** Every record paired with its similarity to the query, in bank order. */
  function Scores(bank: Bank, query: seq<real>, similarity: (seq<real>, seq<real>) -> real): (hits: seq<Hit>)
  {
    seq(|bank|, i requires 0 <= i < |bank| => Hit(bank[i].id, bank[i].text, similarity(query, bank[i].embedding)))
  }

  /** `h` is the hit for some record of the bank. */
  ghost predicate FromBank(h: Hit, bank: Bank, query: seq<real>, similarity: (seq<real>, seq<real>) -> real)
  {
    exists i :: 0 <= i < |bank| && h == Hit(bank[i].id, bank[i].text, similarity(query, bank[i].embedding))
  }

  /** `h` carries the id and text of some record of the bank. */
  ghost predicate StoredIn(h: Hit, bank: Bank)
  {
    exists i :: 0 <= i < |bank| && h.id == bank[i].id && h.text == bank[i].text
  }

  /** `hits` are hits for records of the bank against `query`, and no record left out
      scores more than a hit kept: they are the best matches for the query. */
  ghost predicate BestMatches(hits: seq<Hit>, bank: Bank, query: seq<real>, similarity: (seq<real>, seq<real>) -> real)
  {
    && (forall k :: 0 <= k < |hits| ==> FromBank(hits[k], bank, query, similarity))
    && Dominates(hits, multiset(Scores(bank, query, similarity)) - multiset(hits))
  }

  /** Every hit scored from the bank is the hit for one of its records. */
  lemma ScoresFromBank(bank: Bank, query: seq<real>, similarity: (seq<real>, seq<real>) -> real, h: Hit)
    requires h in multiset(Scores(bank, query, similarity))
    ensures FromBank(h, bank, query, similarity)
  {
  }

  /** The ranking half of `search`: score every record, sort by non-increasing score,
      keep `slice(0, topK)`. */
  function Rank(bank: Bank, query: seq<real>, similarity: (seq<real>, seq<real>) -> real, topK: int): (r: seq<Hit>)
    ensures |r| == SliceEnd(|bank|, topK)
    ensures topK >= 0 ==> |r| <= topK
    ensures |bank| == 0 ==> r == []
    ensures Ranked(r)
    ensures forall k :: 0 <= k < |r| ==> StoredIn(r[k], bank)
    ensures BestMatches(r, bank, query, similarity)
    ensures multiset(r) <= multiset(Scores(bank, query, similarity))
    ensures topK >= |bank| ==> multiset(r) == multiset(Scores(bank, query, similarity))
  {
    var scored := Scores(bank, query, similarity);
    var r := TopK(scored, topK);
    assert forall k :: 0 <= k < |r| ==> FromBank(r[k], bank, query, similarity) by {
      forall k | 0 <= k < |r|
        ensures FromBank(r[k], bank, query, similarity)
      {
        assert r[k] in multiset(r);
        ScoresFromBank(bank, query, similarity, r[k]);
      }
    }
    assert Dominates(r, multiset(scored) - multiset(r));
    assert BestMatches(r, bank, query, similarity);
    assert forall k :: 0 <= k < |r| ==> StoredIn(r[k], bank) by {
      forall k | 0 <= k < |r|
        ensures StoredIn(r[k], bank)
      {
        var i :| 0 <= i < |bank| && r[k] == Hit(bank[i].id, bank[i].text, similarity(query, bank[i].embedding));
      }
    }
    r
  }

  /** What `search` returns and the pipeline cache it leaves. */
  datatype SearchOutcome<H> = SearchOutcome(hits: seq<Hit>, cache: Cache<H>)

  /** `search(query, topK)`: embed the query, then rank the bank against it. */
  function Search<H, R>(cache: Cache<H>, bank: Bank, query: string, topK: int, host: Host<H, R>): (r: SearchOutcome<H>)
    ensures FeatureExtraction in r.cache && Extends(cache, r.cache)
    ensures r.cache.Keys == cache.Keys + {FeatureExtraction}
    ensures |r.hits| == SliceEnd(|bank|, topK)
    ensures topK >= 0 ==> |r.hits| <= topK
    ensures Ranked(r.hits)
    ensures forall k :: 0 <= k < |r.hits| ==> StoredIn(r.hits[k], bank)
    ensures r.cache == Embed(cache, query, host).cache
    ensures BestMatches(r.hits, bank, Embed(cache, query, host).vector, host.similarity)
    ensures r.hits == Rank(bank, Embed(cache, query, host).vector, host.similarity, topK)
  {
    var embedded := Embed(cache, query, host);
    SearchOutcome(Rank(bank, embedded.vector, host.similarity, topK), embedded.cache)
  }

  /** `search(query)` with the default `topK`: the best `DefaultTopK` records, or the
      whole bank when it is smaller. */
  function SearchDefault<H, R>(cache: Cache<H>, bank: Bank, query: string, host: Host<H, R>): (r: SearchOutcome<H>)
    ensures r == Search(cache, bank, query, DefaultTopK, host)
    ensures |r.hits| == if |bank| < DefaultTopK then |bank| else DefaultTopK
  {
    Search(cache, bank, query, DefaultTopK, host)
  }

  /** What `add` returns, the bank it leaves and the pipeline cache it leaves. */
  datatype AddOutcome<H> = AddOutcome(id: string, bank: Bank, cache: Cache<H>)

  /** `add(text)` with the clock reading as `id`: embed the text, append one record, return its id. */
  function Add<H, R>(cache: Cache<H>, bank: Bank, text: string, id: string, host: Host<H, R>): (r: AddOutcome<H>)
    ensures r.id == id
    ensures |r.bank| == |bank| + 1 && r.bank[..|bank|] == bank
    ensures r.bank[|bank|] == MemoryRecord(id, text, Embed(cache, text, host).vector)
    ensures r.cache == Embed(cache, text, host).cache
  {
    var embedded := Embed(cache, text, host);
    AddOutcome(id, bank + [MemoryRecord(id, text, embedded.vector)], embedded.cache)
  }

  /** The first hit of a non-empty search scores at least as much as every record. */
  lemma TopHitIsBest(bank: Bank, query: seq<real>, similarity: (seq<real>, seq<real>) -> real, topK: int, i: nat)
    requires topK >= 1 && i < |bank|
    ensures |Rank(bank, query, similarity, topK)| >= 1
    ensures similarity(query, bank[i].embedding) <= Rank(bank, query, similarity, topK)[0].score
  {
    var scored := Scores(bank, query, similarity);
    var hits := Rank(bank, query, similarity, topK);
    var y := scored[i];
    assert y.score == similarity(query, bank[i].embedding);
    assert y in multiset(scored);
    if y in multiset(hits) {
      var k :| 0 <= k < |hits| && hits[k] == y;
      assert Ranked(hits);
    } else {
      assert y in multiset(scored) - multiset(hits);
      assert hits[0] in hits;
      assert Dominates(hits, multiset(scored) - multiset(hits));
    }
  }

  /** When no vector is more similar to anything than to itself, and the bank holds a
      record whose embedding is the query, the top hit scores the query's self-similarity
      and no record scores more. */
  lemma SelfMatchTopsRank(bank: Bank, query: seq<real>, similarity: (seq<real>, seq<real>) -> real, topK: int, j: nat)
    requires topK >= 1 && j < |bank| && bank[j].embedding == query
    requires forall v, w :: similarity(v, w) <= similarity(v, v)
    ensures |Rank(bank, query, similarity, topK)| >= 1
    ensures Rank(bank, query, similarity, topK)[0].score == similarity(query, query)
    ensures forall i :: 0 <= i < |bank| ==> similarity(query, bank[i].embedding) <= Rank(bank, query, similarity, topK)[0].score
  {
    var hits := Rank(bank, query, similarity, topK);
    forall i | 0 <= i < |bank|
      ensures similarity(query, bank[i].embedding) <= hits[0].score
    {
      TopHitIsBest(bank, query, similarity, topK, i);
    }
    TopHitIsBest(bank, query, similarity, topK, j);
    assert FromBank(hits[0], bank, query, similarity);
  }

  /** Adding a text and then searching for the same text, when no embedding is more
      similar to a vector than the vector itself (as for cosine similarity): the
      top hit scores exactly what the new record scores, and no record outscores it. */
  lemma AddThenSearchTopsWithOwnScore<H, R>(cache: Cache<H>, bank: Bank, text: string, id: string, topK: int, host: Host<H, R>)
    requires topK >= 1
    requires forall v, w :: host.similarity(v, w) <= host.similarity(v, v)
    ensures var added := Add(cache, bank, text, id, host);
            var found := Search(added.cache, added.bank, text, topK, host);
            var own := added.bank[|bank|].embedding;
            && |found.hits| >= 1
            && found.hits[0].score == host.similarity(own, own)
            && forall i :: 0 <= i < |added.bank| ==> host.similarity(own, added.bank[i].embedding) <= found.hits[0].score
  {
    var first := Embed(cache, text, host);
    var added := Add(cache, bank, text, id, host);
    assert added.cache == first.cache;
    var again := Embed(added.cache, text, host);
    assert again.cache == first.cache;
    var own := added.bank[|bank|].embedding;
    assert again.vector == first.vector == own;
    assert Search(added.cache, added.bank, text, topK, host).hits == Rank(added.bank, own, host.similarity, topK);
    SelfMatchTopsRank(added.bank, own, host.similarity, topK, |bank|);
  }
}
