/**
 * Submission results: the ranked entries returned by the results endpoint,
 * their per-song enrichment, and the assembly of the visible result list
 * (the map over the ranked entries followed by the filter of failures).
 */
module Search {
  import opened Wrappers

  /** One entry of the ranked list: `song_id`, `score_audio`, `score_text`, `synthesized_score`. */
  datatype Rank = Rank(songId: string, scoreAudio: real, scoreText: real, synthesizedScore: real)

  /** The detail object returned by the song endpoint (`payload.result.result`). */
  datatype Detail = Detail(id: string, title: string, url: string, thumbnails: seq<string>)

  /** A displayed result: the detail object with the three scores of its rank merged onto it. */
  datatype Candidate = Candidate(info: Detail, audioScore: real, textScore: real, finalScore: real)

  /** How the results request ended, up to the point where the ranked list is available. */
  datatype RetrievalOutcome =
    | TransportFail             // the request itself was rejected
    | NotOk                     // the response status was not a success
    | BadPayload                // the body was not JSON, or `result.result` was missing or falsy
    | NotAList                  // `result.result` was present but had no `map`: the outer catch runs
    | Ranked(ranks: seq<Rank>)  // `result.result` was a list of ranked entries
  {
    /** The three outcomes that leave `handleSubmit` through a `return` inside its `try`. */
    predicate ReturnsEarly() {
      TransportFail? || NotOk? || BadPayload?
    }
  }

  /**
   * Per-song enrichment: the detail fetched for an identifier, or None when the
   * request, its JSON or its `result.result` failed.
   */
  type Enricher = string -> Option<Detail>

  function Merge(rank: Rank, info: Detail): Candidate {
    Candidate(info, rank.scoreAudio, rank.scoreText, rank.synthesizedScore)
  }

  /** The async callback run for one ranked entry: a candidate or null. */
  function EnrichOne(rank: Rank, enrich: Enricher): Option<Candidate> {
    match enrich(rank.songId)
    case Some(info) => Some(Merge(rank, info))
    case None => None
  }

  /** `Promise.all` over the mapped callbacks: one settled value per entry, in index order. */
  function EnrichAll(ranks: seq<Rank>, enrich: Enricher): seq<Option<Candidate>> {
    seq(|ranks|, i requires 0 <= i < |ranks| => EnrichOne(ranks[i], enrich))
  }

  /** The `filter(info => info !== null)` over the settled values. */
  function DropFailures(xs: seq<Option<Candidate>>): (r: seq<Candidate>)
    ensures |r| <= |xs|
    ensures forall c :: c in r <==> Some(c) in xs
  {
    if xs == [] then []
    else match xs[0]
      case Some(c) => [c] + DropFailures(xs[1..])
      case None => DropFailures(xs[1..])
  }

  /** The result list installed by a successful submission. */
  function Assemble(ranks: seq<Rank>, enrich: Enricher): seq<Candidate> {
    DropFailures(EnrichAll(ranks, enrich))
  }

  lemma {:induction false} DropFailuresAppend(xs: seq<Option<Candidate>>, ys: seq<Option<Candidate>>)
    ensures DropFailures(xs + ys) == DropFailures(xs) + DropFailures(ys)
    decreases |xs|
  {
    if xs == [] {
      assert xs + ys == ys;
    } else {
      assert (xs + ys)[1..] == xs[1..] + ys;
      DropFailuresAppend(xs[1..], ys);
    }
  }

  /** Nothing is dropped exactly when every settled value is a candidate. */
  lemma {:induction false} DropFailuresKeepsAll(xs: seq<Option<Candidate>>)
    ensures |DropFailures(xs)| == |xs| <==> forall i :: 0 <= i < |xs| ==> xs[i].Some?
    decreases |xs|
  {
    if xs != [] {
      DropFailuresKeepsAll(xs[1..]);
      assert forall i :: 1 <= i < |xs| ==> xs[i] == xs[1..][i - 1];
    }
  }

  /**
   * Assembly distributes over concatenation of the ranked list: the candidates of
   * the first entries come first, those of the later entries after, so the server
   * order survives and no entry influences another.
   */
  lemma AssembleAppend(a: seq<Rank>, b: seq<Rank>, enrich: Enricher)
    ensures Assemble(a + b, enrich) == Assemble(a, enrich) + Assemble(b, enrich)
  {
    assert EnrichAll(a + b, enrich) == EnrichAll(a, enrich) + EnrichAll(b, enrich);
    DropFailuresAppend(EnrichAll(a, enrich), EnrichAll(b, enrich));
  }

  /** One entry yields its merged candidate when its enrichment succeeds, and nothing otherwise. */
  lemma AssembleSingle(rank: Rank, enrich: Enricher)
    ensures enrich(rank.songId).Some? ==>
      Assemble([rank], enrich) == [Candidate(enrich(rank.songId).value, rank.scoreAudio, rank.scoreText, rank.synthesizedScore)]
    ensures enrich(rank.songId).None? ==> Assemble([rank], enrich) == []
  {
  }

  /** The result list is never longer than the ranked list, and as long exactly when no enrichment failed. */
  lemma AssembleLength(ranks: seq<Rank>, enrich: Enricher)
    ensures |Assemble(ranks, enrich)| <= |ranks|
    ensures |Assemble(ranks, enrich)| == |ranks| <==>
      forall i :: 0 <= i < |ranks| ==> enrich(ranks[i].songId).Some?
  {
    var xs := EnrichAll(ranks, enrich);
    DropFailuresKeepsAll(xs);
    assert forall i :: 0 <= i < |ranks| ==> (xs[i].Some? <==> enrich(ranks[i].songId).Some?);
  }

  /**
   * Every displayed candidate is the detail of some ranked entry whose enrichment
   * succeeded, carrying that entry's three scores.
   */
  lemma AssembleTrace(ranks: seq<Rank>, enrich: Enricher, j: nat)
    requires j < |Assemble(ranks, enrich)|
    ensures exists i ::
              && 0 <= i < |ranks|
              && enrich(ranks[i].songId).Some?
              && Assemble(ranks, enrich)[j] == Candidate(enrich(ranks[i].songId).value,
                   ranks[i].scoreAudio, ranks[i].scoreText, ranks[i].synthesizedScore)
  {
    var xs := EnrichAll(ranks, enrich);
    var c := Assemble(ranks, enrich)[j];
    assert c in DropFailures(xs);
    var k :| 0 <= k < |xs| && xs[k] == Some(c);
    assert EnrichOne(ranks[k], enrich) == Some(c);
  }

  /** Every ranked entry whose enrichment succeeded is displayed. */
  lemma AssembleComplete(ranks: seq<Rank>, enrich: Enricher, i: nat)
    requires i < |ranks| && enrich(ranks[i].songId).Some?
    ensures Candidate(enrich(ranks[i].songId).value, ranks[i].scoreAudio, ranks[i].scoreText, ranks[i].synthesizedScore)
      in Assemble(ranks, enrich)
  {
    var xs := EnrichAll(ranks, enrich);
    assert xs[i] == Some(Merge(ranks[i], enrich(ranks[i].songId).value));
  }

  /**
   * Two ranked entries "a" then "b"; the detail of "a" is found and that of "b"
   * is not: the result list holds exactly the candidate for "a".
   */
  lemma PartialEnrichmentExample(enrich: Enricher, a: Detail)
    requires enrich("a") == Some(a) && enrich("b") == None
    ensures Assemble([Rank("a", 0.9, 80.0, 900.0), Rank("b", 0.5, 60.0, 950.0)], enrich)
      == [Candidate(a, 0.9, 80.0, 900.0)]
  {
    var ra, rb := Rank("a", 0.9, 80.0, 900.0), Rank("b", 0.5, 60.0, 950.0);
    AssembleAppend([ra], [rb], enrich);
    AssembleSingle(ra, enrich);
    AssembleSingle(rb, enrich);
    assert [ra] + [rb] == [ra, rb];
  }
}
