# Pexels video-search proxy, modelled in Dafny

The service is a single HTTP endpoint (`POST /api`) that forwards a video
search to the Pexels API. It reads `query`, `apiKey`, `count` (default 3) and
`randomize` (default false) from the JSON body, answers 400 when `query` or
`apiKey` is missing or empty, optionally picks a random results page after a
"scout" request that learns the total number of results, makes one search
request for `count` landscape videos on that page, and reduces each returned
video to its id, its photographer's name and the link of its first "sd"
rendition. An `HTTPException` (the 400, or a non-200 upstream status) reaches
the caller with its own status; any other exception becomes 500.

The model has four modules:

- `PexelsData` (`pexels_data.dfy`): the JSON values as datatypes; a key that
  may be absent is an `Option`.
- `PageSelection` (`page_selection.dfy`): the page bound
  `min(ceil(total / 80), 200)` in exact integer arithmetic, and the
  page-selection block as a method whose random draw is a nondeterministic
  choice from `[1, bound]`.
- `Refinement` (`refinement.dfy`): the refinement loop as a method
  (`Refine`, with the inner `for ... break` scan `ScanForSdLink`), proved
  against the function `Refined`, an instance of a generic filter-map
  `FilterMap` over the predicate `Kept` and the function `Summarize`. Its
  properties are lemmas, proved once for `FilterMap` and restated for videos:
  the input order is kept, dropped videos leave no trace, kept ones yield
  exactly one entry carrying the first "sd" link, and the result agrees with
  an independent filter-then-map definition.
- `Handler` (`handler.dfy`): parameter defaults and validation as a function,
  the search pipeline and the endpoint as methods. The scout outcome is a
  value and the main upstream request is a function `fetch` from the request
  sent to the reply received; `Handle` also returns whether it made the scout
  request and the main request it sent, so "400 before any search" is stated
  as "no scout and no request was sent".

The model follows the code as written: there is no 408 path (a timeout of the main request is an ordinary
exception and becomes 500); a non-200 upstream status is passed to the caller
unchanged; the API key comes from the request body; the orientation is always
"landscape"; `count` is passed on without any check that it is positive; and
the refined link is that of the first file whose quality is "sd" *and* that
has a `link` key, so a first such file with an empty link drops the video even
when a later "sd" file has a usable link.

## Model

| member | source | states |
|---|---|---|
| `PageSelection.TotalOf` | api/index.py:30 | the scout's total is its `total_results` value, or 0 when the key is missing |
| `PageSelection.PageCount` | api/index.py:33-34 | for a positive total, the page count p is the ceiling of total / 80: (p-1)*80 < total <= p*80, so p >= 1 |
| `PageSelection.PageLimit` | api/index.py:33-35 | the page limit lies in [1, 200]; below 200 it is the exact ceiling of total / 80, and it is 200 only when the total needs more than 199 pages |
| `PageSelection.PageLimitUnique` | api/index.py:34-35 | the contract of `PageLimit` determines its value: anything meeting it equals min(ceil(total / 80), 200) |
| `PageSelection.DrawBound` | api/index.py:20-41 | the top of the draw range lies in [1, 200] and exceeds 1 exactly when randomize is set, the scout succeeded, the total is positive and its page limit exceeds 1; it is then that page limit |
| `PageSelection.ResolvePage` | api/index.py:20-41 | the scout request is made exactly when randomize is set; the chosen page lies in [1, DrawBound] and never exceeds 200; it is 1 when randomize is false, when the scout failed, or when the total is missing or not positive; otherwise it is at most the page limit of the total |
| `Refinement.FirstSdIndex` | api/index.py:65-68 | the index found is that of a file with quality "sd" and a `link` key, and no earlier file is one; when none is found, no file is one |
| `Refinement.DownloadLink` | api/index.py:64-68 | a non-empty download link is the link of some file with quality "sd" and a `link` key; with no such file the link is empty |
| `Refinement.Kept` | api/index.py:69 | a kept video has a file with quality "sd" and a `link` key |
| `Refinement.Summarize` | api/index.py:70-74 | the entry carries the video's id, has a photographer exactly when the video has a `user` with a `name`, and has a non-empty download link when the video is kept |
| `Refinement.FirstMatchDecides` | api/index.py:65-68 | the first file with quality "sd" and a `link` key fixes the download link to its link, whatever later files hold |
| `Refinement.EmptyFirstSdLinkDropsVideo` | api/index.py:64-69 | a video whose first "sd" file with a `link` key has an empty link is dropped even when a later "sd" file has a non-empty link |
| `Refinement.KeptIff` | api/index.py:64-69 | a video is kept exactly when some file has quality "sd" and a `link` key, and the first such file's link is non-empty |
| `Refinement.Refined` | api/index.py:61-74 | the refined list is no longer than the video list |
| `Refinement.RefinedAppend` | api/index.py:61-74 | refining a concatenation gives the concatenation of the refined parts, so the input order is kept |
| `Refinement.DroppedOrSummarized` | api/index.py:63-74 | a video's place in the list: the reply is the reply for the videos before it, then its summary if it is kept, then the reply for the videos after it; removing a dropped video leaves the reply unchanged; a kept video adds exactly one entry, its summary, right after the entries of the videos before it |
| `Refinement.RefinedIsFilterThenMap` | api/index.py:61-74 | the loop-shaped definition equals keeping the surviving videos and then summarising each |
| `Refinement.RefinedEntriesFromKeptVideos` | api/index.py:69-73 | every reply entry is the summary (id, photographer, first "sd" link) of some kept input video, and its download link is non-empty |
| `Refinement.OneOfTwoVideosKept` | api/index.py:63-74 | a kept video followed by a video with no "sd" file that has a `link` key gives exactly one entry, the first video's summary |
| `Refinement.ScanForSdLink` | api/index.py:64-68 | the inner scan with `break` returns the link of the first file with quality "sd" and a `link` key, or "" when there is none |
| `Refinement.Refine` | api/index.py:61-76 | the reply has status "success" and its list is the refined list of the payload's videos; with no `videos` key the list is empty |
| `Handler.Validate` | api/index.py:90-97 | the request is rejected with 400 exactly when `query` or `apiKey` is missing or empty; otherwise the parameters are those of the body, `count` defaults to 3 and `randomize` is true only when the body says true |
| `Handler.StatusOf` | api/index.py:105-110 | an `HTTPException` keeps its own status and any other failure becomes 500 |
| `Handler.RequestFor` | api/index.py:44-49 | a request that fits the parameters asks for a page in [1, 200], and for page 1 without randomize |
| `Handler.SearchVideos` | api/index.py:14-76 | the scout request is made exactly when randomize is set; the request sent carries the key, the query, `count` as per_page, orientation "landscape" and a page in [1, DrawBound] (1 without randomize); a non-200 reply yields an HTTP error with that status, a transport failure or undecodable body an unexpected error, and a 200 reply the refined result with status "success" |
| `Handler.Handle` | api/index.py:81-110 | a body that cannot be read gives 500 and a missing or empty `query` or `apiKey` gives 400, both without the scout or the main upstream request; the scout request is made exactly when a valid request asks for randomize; otherwise one request is sent as `SearchVideos` describes, a non-200 upstream status is passed through unchanged, any other failure gives 500, success gives the refined reply, and no error response ever carries status 200 |
| `Handler.DefaultRequestFetchesFirstPage` | api/index.py:92-93 | with `randomize` absent the request asks for page 1, whatever the scout reports, and per_page is `count` or 3 when absent |

## Left out

- The HTTP layer: the FastAPI application, async/await, the httpx clients, the search URL, the `Authorization` header's transport and the 20 s and 30 s timeouts. The scout's outcome is an input value and the main request is a function from the request sent to the reply received.
- The scout request's own parameters (per_page 1, page 1, no orientation): only its outcome (failure, or a decoded `total_results`) is modelled.
- `random.randint` and its uniform distribution: the draw is a nondeterministic choice from the allowed range, so the model says which pages can be drawn, not how likely each is.
- `PageSelection.ResolvePage`: `math.ceil(total_results / items_per_page)` (api/index.py:34) divides in floating point, the model exactly. Float rounding cannot change the capped limit (every total above 16000 gives 200 either way), but for a total above about 1.44·10^310 the division raises `OverflowError`; the `except` at api/index.py:38-41 then keeps page 1, while the model's limit is 200 and its draw may pick any page up to 200.
- JSON values of unexpected types: a non-string `query` or link, a `null` `user` or `videos`, a non-boolean `randomize` or non-integer `count`. Each field is modelled with its expected type or as absent; a `null` in a place the service dereferences raises there and would give 500.
- The `detail` messages of the HTTP errors and the `print` diagnostics: only the status codes are modelled.
