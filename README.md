# Semantic listing search: query-time filtering, in Dafny

This project models the query side of a small semantic search over short-term rental listings.
A `VectorSearcher` holds a loaded nearest-neighbour index and a metadata table. The table maps
the decimal string of each position `i` to the `i`-th listing's metadata. For a query vector,
`Search` asks the index for `limit * 3` neighbours. It walks the ranked `(id, distance)` pairs
nearest first and scores each one as `1 / (1 + distance)`. It looks up the metadata by id, drops
listings outside the inclusive price range, and, when wifi is required, drops listings whose
amenities lack the exact string `"Wifi"`. It appends each survivor and stops as soon as it holds
`limit` results. A `SearchResult` can format its amenities as a bulleted string.

- `models.dfy`, module `Models`: the `SearchResult` record, `FormatAmenities`, Python's
  `str.join` (`Join`), and a reference definition `Bulleted` ("a bullet before every amenity").
- `searcher.dfy`, module `Searcher`:
  - the metadata table and `str(i)` (`Key`);
  - the score;
  - two pure specifications of the loop. `Survivors` is every surviving candidate, in order.
    `Scan` walks the list until `need` survivors exist, and it fails on the first missing key;
  - the lemmas relating the two;
  - the class `VectorSearcher`, whose `Search` method holds the loop and is proved equal to `Scan`.

The index and the embedding call enter as values. The loaded index is its query function
`(query vector, k) -> ranked (id, distance) pairs`. The query embedding is a parameter of
`Search`. Distances are non-negative `real`s, and scores are computed exactly over the reals.

A missing metadata key raises `KeyError` in the source. Here it is an `Err(KeyError(key))`
result, not a precondition. The source never looks up candidates after the break, so a bad id
there does no harm (`ScanIgnoresTail`). Under the builder's dense-id convention
(`app/indexer.py:86`, ids `0..N-1`), no lookup fails (`DenseIdsResolve`, `ScanResolved`).

The code allows a `limit` below 1. The stop test `len(filtered_results) >= limit` runs only
after an append, so such a call keeps the first survivor and then stops. The model follows the
code: the loop keeps `Cap(limit) = max(limit, 1)` results at most. `len(results) <= limit`
therefore holds only for `limit >= 1`. For a smaller limit the result is empty exactly when no
candidate survives.

`format_amenities` reads `self.amenities` and changes nothing. In the model it is a function on
an immutable datatype value, so it cannot modify the record.

## Model

| member | source | states |
|---|---|---|
| `Models.SearchResult.FormatAmenities` | app/models.py:14-16 | the formatted string always begins with the bullet `"\n  - "` |
| `Models.FormatAmenitiesEmpty` | app/models.py:16 | with no amenities the output is exactly `"\n  - "` |
| `Models.JoinBulleted` | app/models.py:16 | a bullet followed by `bullet.join(parts)` equals "bullet + part" for each part, in order (non-empty parts) |
| `Models.FormatAmenitiesBulleted` | app/models.py:16 | for a non-empty list the output is the concatenation of `"\n  - " + a` over the amenities in list order |
| `Models.BulletedLength` | app/models.py:16 | the bulleted form is 5 characters per part plus the parts' total length |
| `Models.FormatAmenitiesLength` | app/models.py:16 | the output length is `5 * max(n, 1)` plus the total length of the `n` amenities |
| `Searcher.Key` | app/searcher.py:46 | `str(n)` is non-empty, and it is a single character exactly when `n < 10` |
| `Searcher.KeyInjective` | app/searcher.py:17 | distinct positions have distinct keys |
| `Searcher.KeysInjective` | app/searcher.py:17 | `str` is injective on all naturals |
| `Searcher.MetadataTable` | app/searcher.py:17 | key `str(i)` maps to `metadata_list[i]` for every position, and the table has no other keys |
| `Searcher.DenseIdsResolve` | app/indexer.py:86 | when every candidate id is below the list length, every lookup finds an entry |
| `Searcher.Score` | app/searcher.py:47 | the score lies in `(0, 1]` and is 1 exactly when the distance is 0 |
| `Searcher.ScoreStrictlyDecreasing` | app/searcher.py:47 | a larger distance gives a strictly smaller score |
| `Searcher.ScoreMonotone` | app/searcher.py:47 | a distance no smaller gives a score no larger |
| `Searcher.Survivors` | app/searcher.py:45-67 | at most one result per candidate; every result's price is in `[min_price, max_price]`; when wifi is required every result has `"Wifi"`; every score is in `(0, 1]` |
| `Searcher.Scan` | app/searcher.py:43-72 | a successful scan holds at most `need` results, all inside the price range and, when required, with `"Wifi"`; a failed scan names a key the table lacks |
| `Searcher.SurvivorsAppend` | app/searcher.py:45-67 | the survivors of a concatenation are the concatenation of the survivors |
| `Searcher.ScanResolved` | app/searcher.py:45-70 | when every key resolves, the answer is exactly the first `need` survivors (all of them if fewer) |
| `Searcher.ScanErrorNamesCandidate` | app/searcher.py:48 | a failed scan's key is the key of some candidate, and the table lacks it |
| `Searcher.ScanIgnoresTail` | app/searcher.py:69-70 | once `need` survivors are found, appending any candidates, even unresolvable ones, leaves the answer unchanged |
| `Searcher.SurvivorsOrigins` | app/searcher.py:44-67 | result `j` is built from candidate `idx[j]`'s metadata and score; `idx` is strictly increasing, so results keep the candidates' order; a candidate appears exactly when it passes both filters |
| `Searcher.SurvivorsBestFirst` | app/searcher.py:45-67 | nearest-first candidates give survivors in non-increasing score order |
| `Searcher.ScanBestFirst` | app/searcher.py:45-70 | nearest-first, resolving candidates give a successful answer in non-increasing score order |
| `Searcher.ScanEmpty` | app/searcher.py:43-72 | an empty candidate list gives an empty answer, not an error |
| `Searcher.Scenario` | app/searcher.py:37-72 | the ten-listing example: neighbours 7, 2, 4, 0, 9 in the price range 60..150 with limit 5 give exactly listings 2, 4, 9, in that order |
| `Searcher.VectorSearcher.constructor` | app/searcher.py:10-18 | the searcher keeps the loaded index, and its metadata table is the position-keyed table of the list |
| `Searcher.VectorSearcher.Search` | app/searcher.py:20-72 | the loop's answer equals `Scan` over the index's answer for `k = limit * 3`, with the caller's filters and at most `max(limit, 1)` results |

## Left out

- The embedding call (`app/searcher.py:32-35`) and the rewrap of its failure: the query vector is a parameter of `Search`, and the embedding client is not modelled.
- Loading the index file and parsing `metadata.json` (`app/searcher.py:12-15`): the constructor takes the loaded index's query function and the parsed list.
- The index's search quality: the neighbour query is an arbitrary function to a ranked list. The model neither states nor proves that the neighbours are actually nearest.
- Floating point: distances and scores are exact reals, so rounding in `1.0 / (1.0 + distance)` is not modelled.
- `SearchResult` declares `_id: str` and `price: float`, but the values it receives are the integers the builder stored. The model types both as `int`.
- Index building, dataset download, persistence and the command-line interface (`app/indexer.py`, `app/cli.py`, `app/utils.py`): these are I/O and foreign library calls. The only fact taken from them is the dense-id assignment at `app/indexer.py:86`, used as the hypothesis of `DenseIdsResolve`.
- No check that the metadata length matches the index's element count: the source has no such check, and the model adds none.
- Searcher.ScanBestFirst: the score-order property is proved when every candidate resolves. It is not proved for scans that stop before reaching an unresolvable candidate.
