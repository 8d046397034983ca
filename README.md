# Instagram profile proxy: the cache-aside fetch pipeline

This project models `get_instagram_profile` from `services/parser.py` and proves what it
does. The service answers a request for a username in one of two ways. It returns a cached
profile record stored under `ig:<username>`. Otherwise it issues one GET to the upstream
profile endpoint, classifies the result and normalises the `data.user` object into a
profile record. It then stores that record in Redis for 600 seconds.

The model has four modules:

- `Wrappers` (`wrappers.dfy`): `Option` stands for a JSON member that `.get(...)` may find
  absent. `Result` is a profile or a classified error.
- `Upstream` (`upstream.dfy`): the upstream response. It holds the status code and a body
  that either fails to decode as JSON or decodes to a document. Every member the code reads
  is an `Option`. Where the code reads a member without a default, an absent member and a
  `null` one both read as `None`. `Truthy` is
  Python's truthiness of the `user` dict. A flag records whether the dict has members the
  other fields do not show, so `{"username": null}` is truthy and `{}` is not.
- `Normalizer` (`normalizer.dfy`): the `Profile` record and the photo walk. `CollectPhotos`
  is the loop as the code runs it, with its `break` and the trailing `[:5]`. It is proved
  equal to the reference definition `LatestPhotos`, which keeps the image photos of the first
  five edges in edge order. `Normalize` builds the record with its fallback and default rules.
- `Parser` (`parser.dfy`): the error kinds and their HTTP status and detail text. It also
  holds the status and user classification (`Classify`, `Resolve`), the Redis client as the
  `Cache` class (a map of stored values plus the expiry each key was last given), and the
  pipeline itself as the method `GetInstagramProfile`.

The upstream GET is not performed. Its `Response` is a parameter of `GetInstagramProfile`,
and the out-parameter `requested` says whether the code would have issued the request.

Some behaviour of the code is easy to get wrong, and the model follows the code:

- Only status 200 succeeds. Any other status apart from 404, a 2xx such as 201 included, is
  `FetchError`.
- A Redis error in `r.get` or `r.set` is not caught. It is not turned into a cache miss or
  ignored. The model's cache cannot fail.
- A missing `username`, `full_name` or `biography` gives JSON `null` (`None` in the model), and
  so does a picture URL when both picture members are missing. None of them gives an empty
  string. A missing counter object or count gives 0. Counts are copied without any check that
  they are non-negative.
- The 404 and 403 exceptions raised inside the `try` are not `JSONDecodeError`s, so they pass
  through the `except` clause unchanged.
- Only the first five timeline edges are looked at. With images at positions 0, 1, 3, 4 and 6
  of seven edges, the result has four photos.

## Model

| member | source | states |
|---|---|---|
| Parser.CacheKey | services/parser.py:20 | the key is the prefix `ig:` followed by the username verbatim |
| Parser.CacheKeyInjective | services/parser.py:20 | two different usernames never map to the same cache key |
| Upstream.Truthy | services/parser.py:48 | the user dict is falsy exactly when it is the empty object `{}` |
| Parser.Hit | services/parser.py:21-22 | a lookup serves a profile exactly when the key holds a non-empty stored value, and serves that value |
| Parser.Cache.Get | services/parser.py:21 | `r.get` returns the stored value when the key is present and nothing otherwise |
| Parser.Cache.Set | services/parser.py:77 | `r.set` stores the value under the key with the given expiry; every other key keeps its value and expiry |
| Parser.Classify | services/parser.py:40-52 | 404 gives NotFound; any other status except 200 gives FetchError; an undecodable 200 body gives ParseError; a missing or empty user gives NotFound; a private user gives Private; otherwise (and only otherwise) the user object is passed on |
| Parser.Resolve | services/parser.py:40-74 | a cache miss yields the profile normalised from the user object exactly when classification succeeds, and the classified error otherwise |
| Parser.OnlyStatus200Succeeds | services/parser.py:40-43 | no status other than 200 ever yields a profile; 404 yields NotFound and every other status FetchError |
| Parser.Error.StatusCode | services/parser.py:40-82 | each error's HTTP status lies in {403, 404, 500}; 404 exactly for NotFound and 403 exactly for Private |
| Parser.Error.Detail | services/parser.py:41-82 | each error carries its own message: "User not found" for NotFound, "Profile is private" for Private, "Error fetching Instagram data" for FetchError and "Error parsing Instagram data" for ParseError |
| Parser.ErrorsDistinguishable | services/parser.py:40-82 | no two error kinds share both status and detail text, so the caller can tell them apart |
| Parser.GetInstagramProfile | services/parser.py:19-79 | a hit returns the stored profile with no request and no cache change; a miss issues the request and returns `Resolve(response)`; only on success does exactly the key `ig:<username>` change, to the returned profile with expiry 600; errors leave the cache untouched |
| Parser.FetchTwice | services/parser.py:20-79 | after a successful fetch, an immediate second fetch for the same username is a hit: no request, the same profile, and the cache holds the profile under `ig:<username>` |
| Normalizer.Window | services/parser.py:56 | `media_edges[:5]`: the walk sees the whole timeline when it has at most five edges, and exactly its first five otherwise |
| Normalizer.CollectPhotos | services/parser.py:54-63 | the loop with its early break and the trailing `[:5]` returns exactly `LatestPhotos` of the edges, at most five entries |
| Normalizer.ImagesOf | services/parser.py:56-61 | the photos of an edge list, in edge order, are never more than its edges, so the break fires only on the last of five edges |
| Normalizer.LatestPhotos | services/parser.py:55-63 | `latest_photos` is the photos of the first five edges and never has more than five entries |
| Normalizer.ImagesOfAppend | services/parser.py:56-59 | the photos of two runs of edges are the photos of the first followed by those of the second: edge order is kept |
| Normalizer.ImagesOfSound | services/parser.py:57-59 | every photo is the `display_url` of some `GraphImage` edge |
| Normalizer.ImagesOfComplete | services/parser.py:57-59 | every `GraphImage` edge contributes its `display_url` |
| Normalizer.NodelessEdgeSkipped | services/parser.py:57-58 | an edge without a node adds no photo wherever it stands |
| Normalizer.LatestPhotosIgnoresTail | services/parser.py:56 | edges after the fifth never change the photos |
| Normalizer.LatestPhotosFromWindow | services/parser.py:56-59 | every photo comes from an image edge among the first five, and every such edge contributes |
| Normalizer.LatestPhotosSevenEdges | services/parser.py:55-63 | images at positions 0, 1, 3, 4, 6 of seven edges give exactly the photos of positions 0, 1, 3, 4 |
| Normalizer.Or | services/parser.py:69 | Python `a or b`: `a` when it is a non-empty string, otherwise `b` |
| Normalizer.Assemble | services/parser.py:65-74 | the profile dict: username, full name and biography copied as they are; HD picture preferred when non-empty, else the standard one; each count is the nested `count` or 0 when the object or the count is absent; the collected photos kept as given |
| Normalizer.Normalize | services/parser.py:65-74 | username, full name and biography copied as they are; HD picture preferred when non-empty, else the standard one; each count is the nested `count` or 0 when the object or the count is absent; photos are `LatestPhotos` of the timeline edges |
| Normalizer.NormalizeInventsNothing | services/parser.py:65-74 | the picture URL is one of the two the user carries, and the at most five photos all come from image nodes among the first five edges |

## Left out

- The HTTP call itself, its URL template and its header set (services/parser.py:26-38). The
  response is a parameter. The headers are constants with no effect on the logic. A transport
  exception from the GET (services/parser.py:35) propagates, and main.py turns it into a 500.
- The Redis connection and its host and port settings (services/parser.py:12-16). Expiry is
  recorded per key and is never counted down, so a key does not expire in the model.
- Redis failures. They propagate out of the function in the code, and the model's cache
  cannot fail.
- JSON encoding and decoding. A stored profile is read back as the same profile. Other
  non-empty cached strings are not modelled. A string that is not JSON makes `json.loads`
  raise outside the `try`, and main.py turns that into a 500. A string that is JSON of
  something else, such as `0`, `null`, `[]` or `{}`, is returned to the caller as it is.
- JSON values of the wrong type where the code calls `.get`. This covers a decoded top-level
  body that is not an object, such as `[]` or `null` (services/parser.py:47), and members such
  as `"data": null`, `"node": null` or `"edge_followed_by": null`. The code raises
  `AttributeError`, and main.py turns that into a 500. The datatypes cannot express such
  documents.
- Classify: reads `is_private` only as a boolean, so other truthy JSON values, such as a
  non-zero number or a non-empty string, cannot mark a profile private in the model.
- Normalize: counts are modelled as integers whatever their JSON type, because the code copies
  them without looking at them.
- Normalize: a count whose value is `null` is not modelled. The code's `.get("count", 0)` then
  returns `None`, and the code returns and caches `null` for `followers`, `following` or
  `posts`. The model reads every `None` count as absent and gives 0.
- CollectPhotos: an `edges` member whose value is `null` is not modelled. The code's
  `media_edges[:5]` then raises `TypeError`, which escapes the `try`. main.py answers 500 and
  nothing is cached. The model reads the `None` edge list as absent and gives `[]`, so
  GetInstagramProfile caches and returns a profile with no photos.
- main.py: routing, the API-key check, rate limiting, the logging middleware and the catch-all
  `Internal server error`. run.py: the server start-up. All of this is request plumbing
  around the pipeline.
- Concurrency. Two concurrent misses for the same username both fetch and both write; the
  model has one call at a time.
- Logging.
