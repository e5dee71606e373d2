/** Query-time filtering and truncation of nearest-neighbour candidates (app/searcher.py). */
module Searcher {
  import opened Models

  /** A distance as the index reports it; cosine distances are never negative. */
  type Distance = d: real | 0.0 <= d

  /** One `(id, distance)` pair of the index's ranked answer. */
  datatype Candidate = Candidate(id: nat, distance: Distance)

  /** One element of the metadata list, at the position of its index id. */
  datatype Metadata = Metadata(
    id: int,
    name: string,
    space: string,
    amenities: seq<string>,
    price: int)

  /** The caller's filter arguments. */
  datatype Filters = Filters(minPrice: int, maxPrice: int, wifiRequired: bool)

  /** The only way the filtering loop fails: a candidate id with no metadata entry. */
  datatype SearchError = KeyError(key: string)

  datatype Result<T> = Ok(value: T) | Err(error: SearchError)

  // ---------------------------------------------------------------------------
  // The metadata table: key str(i) for position i.

  function DigitChar(d: nat): char
    requires d < 10
  {
    ('0' as int + d) as char
  }

  /** Python's `str(n)` for a non-negative integer: its decimal digits. */
  function Key(n: nat): (s: string)
    ensures |s| >= 1
    ensures |s| == 1 <==> n < 10
  {
    if n < 10 then [DigitChar(n)] else Key(n / 10) + [DigitChar(n % 10)]
  }

  /** Different numbers have different decimal strings. */
  lemma {:induction false} KeyInjective(a: nat, b: nat)
    requires Key(a) == Key(b)
    ensures a == b
  {
    if a >= 10 && b >= 10 {
      var ka, kb := Key(a), Key(b);
      assert ka[..|ka| - 1] == Key(a / 10);
      assert kb[..|kb| - 1] == Key(b / 10);
      KeyInjective(a / 10, b / 10);
      assert ka[|ka| - 1] == DigitChar(a % 10);
      assert kb[|kb| - 1] == DigitChar(b % 10);
    }
  }

  lemma KeysInjective()
    ensures forall a: nat, b: nat :: Key(a) == Key(b) ==> a == b
  {
    forall a: nat, b: nat | Key(a) == Key(b)
      ensures a == b
    {
      KeyInjective(a, b);
    }
  }

  /** `{str(i): item for i, item in enumerate(metadata_list)}`. */
  function MetadataTable(list: seq<Metadata>): (t: map<string, Metadata>)
    ensures forall i :: 0 <= i < |list| ==> Key(i) in t && t[Key(i)] == list[i]
    ensures forall k :: k in t ==> exists i :: 0 <= i < |list| && Key(i) == k
  {
    KeysInjective();
    map i | 0 <= i < |list| :: Key(i) := list[i]
  }

  /** Every candidate id has an entry in the table. */
  ghost predicate Resolves(metadata: map<string, Metadata>, cs: seq<Candidate>)
  {
    forall c <- cs :: Key(c.id) in metadata
  }

  /** Under the builder's dense-id convention (ids 0..N-1) every lookup succeeds. */
  lemma DenseIdsResolve(list: seq<Metadata>, cs: seq<Candidate>)
    requires forall c <- cs :: c.id < |list|
    ensures Resolves(MetadataTable(list), cs)
  {
  }

  // ---------------------------------------------------------------------------
  // Scoring and filtering of one candidate.

  /** `1 / (1 + distance)`: in (0, 1], and 1 exactly for a zero distance. */
  function Score(d: Distance): (r: real)
    ensures 0.0 < r <= 1.0
    ensures r == 1.0 <==> d == 0.0
  {
    1.0 / (1.0 + d)
  }

  /** The score is strictly decreasing in the distance. */
  lemma ScoreStrictlyDecreasing(d1: Distance, d2: Distance)
    requires d1 < d2
    ensures Score(d1) > Score(d2)
  {
    var a, b := 1.0 + d1, 1.0 + d2;
    assert 0.0 < a * b;
    assert Score(d1) - Score(d2) == (b - a) / (a * b);
  }

  lemma ScoreMonotone(d1: Distance, d2: Distance)
    requires d1 <= d2
    ensures Score(d1) >= Score(d2)
  {
    if d1 < d2 {
      ScoreStrictlyDecreasing(d1, d2);
    }
  }

  /** The inclusive price range and, when asked for, the exact amenity "Wifi". */
  predicate Passes(m: Metadata, f: Filters)
  {
    f.minPrice <= m.price <= f.maxPrice && !(f.wifiRequired && "Wifi" !in m.amenities)
  }

  /** The result built for a surviving candidate: metadata fields and the score. */
  function ToResult(m: Metadata, score: real): SearchResult
  {
    SearchResult(m.id, m.name, m.space, m.amenities, m.price, score)
  }

  /** The result a resolving candidate contributes when it survives. */
  function Hit(metadata: map<string, Metadata>, c: Candidate): SearchResult
    requires Key(c.id) in metadata
  {
    ToResult(metadata[Key(c.id)], Score(c.distance))
  }

  // ---------------------------------------------------------------------------
  // Specification of the loop.

  /** All surviving candidates, in the index's order, each turned into a result. */
  function Survivors(metadata: map<string, Metadata>, cs: seq<Candidate>, f: Filters): (r: seq<SearchResult>)
    requires Resolves(metadata, cs)
    ensures |r| <= |cs|
    ensures forall x <- r :: f.minPrice <= x.price <= f.maxPrice
    ensures forall x <- r :: f.wifiRequired ==> "Wifi" in x.amenities
    ensures forall x <- r :: 0.0 < x.similarityScore <= 1.0
  {
    if cs == [] then []
    else
      var c := cs[|cs| - 1];
      Survivors(metadata, cs[..|cs| - 1], f)
        + (if Passes(metadata[Key(c.id)], f) then [Hit(metadata, c)] else [])
  }

  /** The first `n` elements of `s`, or all of them when there are fewer. */
  function Take<T>(s: seq<T>, n: nat): seq<T>
  {
    if n <= |s| then s[..n] else s
  }

  /** The loop stops once `len(results) >= limit`, tested after an append: at least one result
      is kept before that test can stop it. */
  function Cap(limit: int): nat
  {
    if limit < 1 then 1 else limit
  }

  function Prepend(p: seq<SearchResult>, r: Result<seq<SearchResult>>): Result<seq<SearchResult>>
  {
    match r
    case Ok(s) => Ok(p + s)
    case Err(e) => Err(e)
  }

  lemma PrependLaws(p: seq<SearchResult>, q: seq<SearchResult>, r: Result<seq<SearchResult>>)
    ensures Prepend(p, Prepend(q, r)) == Prepend(p + q, r)
    ensures Prepend([], r) == r
    ensures r == Ok([]) ==> Prepend(p, r) == Ok(p)
  {
    if r.Ok? {
      assert p + (q + r.value) == (p + q) + r.value;
      assert [] + r.value == r.value;
      assert p + [] == p;
    }
  }

  /** One step of the scan from position `i`. */
  lemma ScanStep(metadata: map<string, Metadata>, cs: seq<Candidate>, i: nat, f: Filters, need: nat)
    requires i < |cs| && 1 <= need
    ensures Key(cs[i].id) !in metadata ==>
              Scan(metadata, cs[i..], f, need) == Err(KeyError(Key(cs[i].id)))
    ensures Key(cs[i].id) in metadata && !Passes(metadata[Key(cs[i].id)], f) ==>
              Scan(metadata, cs[i..], f, need) == Scan(metadata, cs[i + 1..], f, need)
    ensures Key(cs[i].id) in metadata && Passes(metadata[Key(cs[i].id)], f) && need == 1 ==>
              Scan(metadata, cs[i..], f, need) == Ok([Hit(metadata, cs[i])])
    ensures Key(cs[i].id) in metadata && Passes(metadata[Key(cs[i].id)], f) && need > 1 ==>
              Scan(metadata, cs[i..], f, need)
              == Prepend([Hit(metadata, cs[i])], Scan(metadata, cs[i + 1..], f, need - 1))
  {
  }

  /** Walks the candidates in order until `need` results exist: a missing key is an
      error, a filtered-out candidate is skipped, and nothing after the last needed
      survivor is looked at. */
  function Scan(metadata: map<string, Metadata>, cs: seq<Candidate>, f: Filters, need: nat)
    : (r: Result<seq<SearchResult>>)
    requires 1 <= need
    ensures r.Ok? ==> |r.value| <= need
    ensures r.Ok? ==> forall x <- r.value :: f.minPrice <= x.price <= f.maxPrice
    ensures r.Ok? ==> forall x <- r.value :: f.wifiRequired ==> "Wifi" in x.amenities
    ensures r.Err? ==> r.error.key !in metadata
    decreases |cs|
  {
    if cs == [] then Ok([])
    else
      var key := Key(cs[0].id);
      if key !in metadata then Err(KeyError(key))
      else if !Passes(metadata[key], f) then Scan(metadata, cs[1..], f, need)
      else if need == 1 then Ok([Hit(metadata, cs[0])])
      else Prepend([Hit(metadata, cs[0])], Scan(metadata, cs[1..], f, need - 1))
  }

  // ---------------------------------------------------------------------------
  // Properties of the specification.

  lemma {:induction false} SurvivorsAppend(metadata: map<string, Metadata>, a: seq<Candidate>, b: seq<Candidate>, f: Filters)
    requires Resolves(metadata, a) && Resolves(metadata, b)
    ensures Resolves(metadata, a + b)
    ensures Survivors(metadata, a + b, f) == Survivors(metadata, a, f) + Survivors(metadata, b, f)
    decreases |b|
  {
    if b == [] {
      assert a + b == a;
    } else {
      var b' := b[..|b| - 1];
      assert (a + b)[..|a + b| - 1] == a + b';
      assert (a + b)[|a + b| - 1] == b[|b| - 1];
      SurvivorsAppend(metadata, a, b', f);
    }
  }

  /** With every key present, the loop returns the first `need` survivors. */
  lemma {:induction false} ScanResolved(metadata: map<string, Metadata>, cs: seq<Candidate>, f: Filters, need: nat)
    requires 1 <= need
    requires Resolves(metadata, cs)
    ensures Scan(metadata, cs, f, need) == Ok(Take(Survivors(metadata, cs, f), need))
    decreases |cs|
  {
    if cs != [] {
      var c, rest := cs[0], cs[1..];
      assert cs == [c] + rest;
      assert [c][..0] == [];
      SurvivorsAppend(metadata, [c], rest, f);
      var tail := Survivors(metadata, rest, f);
      if !Passes(metadata[Key(c.id)], f) {
        ScanResolved(metadata, rest, f, need);
        assert Survivors(metadata, cs, f) == tail;
      } else if need == 1 {
        assert Survivors(metadata, cs, f) == [Hit(metadata, c)] + tail;
      } else {
        ScanResolved(metadata, rest, f, need - 1);
        assert Survivors(metadata, cs, f) == [Hit(metadata, c)] + tail;
        assert Take([Hit(metadata, c)] + tail, need) == [Hit(metadata, c)] + Take(tail, need - 1);
      }
    }
  }

  /** A failed scan names the key of one of the candidates, a key the table lacks. */
  lemma {:induction false} ScanErrorNamesCandidate(metadata: map<string, Metadata>, cs: seq<Candidate>, f: Filters, need: nat)
    returns (k: nat)
    requires 1 <= need
    requires Scan(metadata, cs, f, need).Err?
    ensures k < |cs| && Key(cs[k].id) == Scan(metadata, cs, f, need).error.key
    ensures Key(cs[k].id) !in metadata
    decreases |cs|
  {
    var key := Key(cs[0].id);
    if key !in metadata {
      k := 0;
    } else if !Passes(metadata[key], f) {
      k := ScanErrorNamesCandidate(metadata, cs[1..], f, need);
      k := k + 1;
    } else {
      k := ScanErrorNamesCandidate(metadata, cs[1..], f, need - 1);
      k := k + 1;
    }
  }

  /** Once `need` survivors have been found, candidates after them are never examined:
      any tail, even one whose ids have no metadata, leaves the outcome unchanged. */
  lemma {:induction false} ScanIgnoresTail(metadata: map<string, Metadata>, cs: seq<Candidate>, tail: seq<Candidate>, f: Filters, need: nat)
    requires 1 <= need
    requires Scan(metadata, cs, f, need).Ok? && |Scan(metadata, cs, f, need).value| == need
    ensures Scan(metadata, cs + tail, f, need) == Scan(metadata, cs, f, need)
    decreases |cs|
  {
    var c := cs[0];
    assert (cs + tail)[0] == c;
    assert (cs + tail)[1..] == cs[1..] + tail;
    var key := Key(c.id);
    if !Passes(metadata[key], f) {
      ScanIgnoresTail(metadata, cs[1..], tail, f, need);
    } else if need > 1 {
      ScanIgnoresTail(metadata, cs[1..], tail, f, need - 1);
    }
  }

  /** Each survivor comes from a candidate that passes the filters, in strictly increasing
      candidate position; its fields are copied from that candidate's metadata; and every
      passing candidate appears. */
  lemma {:induction false} SurvivorsOrigins(metadata: map<string, Metadata>, cs: seq<Candidate>, f: Filters)
    returns (idx: seq<nat>)
    requires Resolves(metadata, cs)
    ensures |idx| == |Survivors(metadata, cs, f)|
    ensures forall j :: 0 <= j < |idx| ==>
              idx[j] < |cs| && Survivors(metadata, cs, f)[j] == Hit(metadata, cs[idx[j]])
    ensures forall j, k :: 0 <= j < k < |idx| ==> idx[j] < idx[k]
    ensures forall k :: 0 <= k < |cs| ==> (k in idx <==> Passes(metadata[Key(cs[k].id)], f))
    decreases |cs|
  {
    if cs == [] {
      idx := [];
    } else {
      var n := |cs| - 1;
      var init := cs[..n];
      var prev := SurvivorsOrigins(metadata, init, f);
      var c := cs[n];
      if Passes(metadata[Key(c.id)], f) {
        idx := prev + [n];
      } else {
        idx := prev;
      }
      forall k | 0 <= k < n
        ensures cs[k] == init[k]
      {
      }
    }
  }

  /** Candidates in ascending order of distance (the index's nearest-first order). */
  ghost predicate NearestFirst(cs: seq<Candidate>)
  {
    forall i, j :: 0 <= i < j < |cs| ==> cs[i].distance <= cs[j].distance
  }

  /** Results in non-increasing order of score. */
  ghost predicate BestFirst(rs: seq<SearchResult>)
  {
    forall i, j :: 0 <= i < j < |rs| ==> rs[i].similarityScore >= rs[j].similarityScore
  }

  /** Nearest-first candidates give best-first survivors. */
  lemma SurvivorsBestFirst(metadata: map<string, Metadata>, cs: seq<Candidate>, f: Filters)
    requires Resolves(metadata, cs)
    requires NearestFirst(cs)
    ensures BestFirst(Survivors(metadata, cs, f))
  {
    var s := Survivors(metadata, cs, f);
    var idx := SurvivorsOrigins(metadata, cs, f);
    forall i, j | 0 <= i < j < |s|
      ensures s[i].similarityScore >= s[j].similarityScore
    {
      ScoreMonotone(cs[idx[i]].distance, cs[idx[j]].distance);
    }
  }

  /** Nearest-first candidates whose keys all resolve give a best-first search answer. */
  lemma ScanBestFirst(metadata: map<string, Metadata>, cs: seq<Candidate>, f: Filters, need: nat)
    requires 1 <= need
    requires Resolves(metadata, cs)
    requires NearestFirst(cs)
    ensures Scan(metadata, cs, f, need).Ok? && BestFirst(Scan(metadata, cs, f, need).value)
  {
    ScanResolved(metadata, cs, f, need);
    SurvivorsBestFirst(metadata, cs, f);
  }

  /** An empty candidate list is an empty answer, not an error. */
  lemma ScanEmpty(metadata: map<string, Metadata>, f: Filters, need: nat)
    requires 1 <= need
    ensures Scan(metadata, [], f, need) == Ok([])
  {
  }

  /** Ten listings priced 50, 80, 120, 200, 90, 60, 75, 300, 40, 110 (external id = position). */
  function ScenarioListings(): seq<Metadata>
  {
    var prices := [50, 80, 120, 200, 90, 60, 75, 300, 40, 110];
    seq(10, i requires 0 <= i < 10 => Metadata(i, "", "", [], prices[i]))
  }

  /** Nearest neighbours 7, 2, 4, 0, 9 with prices 60..150 and no wifi filter, limit 5: the
      answer is listings 2, 4, 9 in that order, fewer than the limit. */
  lemma Scenario()
    ensures var t := MetadataTable(ScenarioListings());
            var cs := [Candidate(7, 0.1), Candidate(2, 0.2), Candidate(4, 0.3), Candidate(0, 0.4), Candidate(9, 0.5)];
            var r := Scan(t, cs, Filters(60, 150, false), Cap(5));
            r.Ok? && |r.value| == 3 && r.value[0].id == 2 && r.value[1].id == 4 && r.value[2].id == 9
  {
  }

  // ---------------------------------------------------------------------------
  // The searcher.

  /** The loaded index's query: the ranked `(id, distance)` pairs for a query vector and `k`. */
  type Index = (seq<real>, int) -> seq<Candidate>

  class VectorSearcher {
    const index: Index
    const metadata: map<string, Metadata>

    /** Keeps the loaded index and keys the metadata list by position. */
    constructor (index: Index, metadataList: seq<Metadata>)
      ensures this.index == index
      ensures metadata == MetadataTable(metadataList)
    {
      this.index := index;
      this.metadata := MetadataTable(metadataList);
    }

    /** Over-fetches `limit * 3` neighbours for the query vector, then filters and truncates. */
    method Search(queryEmbedding: seq<real>, minPrice: int, maxPrice: int, wifiRequired: bool, limit: int)
      returns (r: Result<seq<SearchResult>>)
      ensures r == Scan(metadata, index(queryEmbedding, limit * 3), Filters(minPrice, maxPrice, wifiRequired), Cap(limit))
    {
      var f := Filters(minPrice, maxPrice, wifiRequired);
      var candidates := index(queryEmbedding, limit * 3);
      var filteredResults: seq<SearchResult> := [];
      assert candidates[0..] == candidates;
      PrependLaws([], [], Scan(metadata, candidates, f, Cap(limit)));
      for i := 0 to |candidates|
        invariant |filteredResults| < Cap(limit)
        invariant Scan(metadata, candidates, f, Cap(limit))
               == Prepend(filteredResults, Scan(metadata, candidates[i..], f, Cap(limit) - |filteredResults|))
      {
        var key := Key(candidates[i].id);
        var score := Score(candidates[i].distance);
        ghost var need := Cap(limit) - |filteredResults|;
        ScanStep(metadata, candidates, i, f, need);
        if key !in metadata {
          return Err(KeyError(key));
        }
        var m := metadata[key];
        if !(minPrice <= m.price <= maxPrice) {
          continue;
        }
        if wifiRequired && "Wifi" !in m.amenities {
          continue;
        }
        var x := ToResult(m, score);
        ghost var before := filteredResults;
        filteredResults := filteredResults + [x];
        if |filteredResults| >= limit {
          break;
        }
        PrependLaws(before, [x], Scan(metadata, candidates[i + 1..], f, need - 1));
      }
      assert candidates[|candidates|..] == [];
      PrependLaws(filteredResults, [], Ok([]));
      return Ok(filteredResults);
    }
  }
}
