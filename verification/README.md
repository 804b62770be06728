# Contoso movie search: a verified model of its decision logic

The Contoso movie search demo is a single Streamlit page. It searches a movie
catalogue held in an Azure AI Search index, in one of four modes: keyword,
vector, hybrid or semantic. For the vector and hybrid modes it turns the
query into an embedding by calling a local Ollama service. Almost all of the
app is UI and HTTP glue. Four pieces of it are pure decision logic, and this
project models and proves them in Dafny:

- **The embedding client** (`get_ollama_embedding`, the reachable part). Blank
  text is answered with None before anything is sent. Otherwise one POST
  `{"model": model, "input": [text]}` goes to the endpoint with a 60-second
  timeout. The decoded reply is then either returned as the vector or
  rejected. It is accepted only as `{"embeddings": [[...]]}` with exactly one
  non-empty inner list, whose length must equal the expected dimension unless
  that is 0.
- **The reachability URL** (`check_ollama`). The endpoint is cut at the first
  `/api/embeddings`, or failing that at the first `/api/embed`, and a `/` is
  appended.
- **Start-up configuration.** The app builds an ordered list of errors from
  six settings, one of which must read as an integer. It starts only when
  that list is empty.
- **Search dispatch.** Only modes whose label contains "Vector" or "Hybrid"
  ask for an embedding. Each mode then issues its own request shape, or none
  when it needs a vector and has none.

Modules, one per concern:

| file | module | what it holds |
|---|---|---|
| wrappers.dfy | Wrappers | `Option` (Python's value-or-None) and `Result` |
| text.dfy | Text | `str.isspace`, `str.strip()`, `sub in s`, `s.split(sep)[0]` |
| numerals.dfy | Numerals | base-10 `int(s)` and `str(n)` |
| json.dfy | Json | decoded JSON values |
| embedding.dfy | Embedding | the embedding request and the response checks |
| reachability.dfy | Reachability | the URL the reachability probe requests |
| config.dfy | Config | environment, configuration errors, validated settings |
| search.dfy | Search | modes, search requests, one search press, one session |

Network calls are parameters. The embedding POST is `send: PostRequest ->
Transport`, where `Transport` is either `Delivered(body)` or
`TransportFailure`. `TransportFailure` stands for every exception the source
catches: timeout, connection error, other request errors, HTTP error status
and undecodable JSON. The reachability GET is `probe: string -> bool`, which
answers for the URL requested.

Points of the code's behaviour worth knowing before reading the model:

- The flat `{"embedding": [...]}` reply is rejected. The only code that
  reads it, and the docstring at src/app.py:123-125 saying both keys are
  handled, come after the unconditional `return None` at src/app.py:122
  (`Embedding.LegacyFlatFormRejected`).
- Six settings are checked. The Ollama endpoint and model have defaults, so
  they fail only when set to the empty string.
- For hybrid search with a failed embedding, the code issues no request at
  all (`Search.VectorModesNeedEmbedding`). It does not fall back to a
  lexical-only search.
- A decoded reply that is not a JSON object is not always handled. A reply
  of `null`, `true` or a number, a string containing "embeddings", or a list
  containing the string "embeddings" makes the code raise a `TypeError`
  that no `except` clause covers. The model gives this case its own
  outcome, `Raised`. `Embedding.ObjectBodyReturns` proves that an object
  reply never raises.
- `int()` on the dimension (src/app.py:251) skips less whitespace than
  `str.strip()`: the ASCII separators U+001C..U+001F count as whitespace
  for `strip()` but not for `int()`, so `"\x1c768"` is not a valid integer
  (`Numerals.SeparatorRejected`). `int()` also refuses more than 4300
  digits.

## Model

| member | source | states |
|---|---|---|
| Text.BlankIffAllSpace | src/app.py:40-41 | `not text or not text.strip()` holds exactly when every character of the text is whitespace |
| Text.Find | src/app.py:221-223 | `pat in s` holds exactly when a position exists where `pat` occurs, and the position returned is the first occurrence |
| Text.BeforeFirst | src/app.py:222-224 | for a non-empty separator, `s.split(sep)[0]` is the text before the first occurrence of `sep`, or all of `s` when `sep` does not occur; an empty separator, where Python raises, is excluded |
| Text.StripAbsorbsSpace | src/app.py:40-41 | characters of the stripped class added around a string do not change what stripping returns |
| Numerals.ParseFormatRoundTrip | src/app.py:251 | `int(str(n)) == n` for every integer within the 4300-digit limit, negative ones included |
| Numerals.ParseIgnoresSurroundingSpace | src/app.py:251 | a dimension surrounded by whitespace that `int()` skips (ASCII space, tab, line feed, vertical tab, form feed, carriage return, non-ASCII `isspace` characters) parses to the same value as without it |
| Numerals.ParseSigned | src/app.py:251 | a stripped literal is accepted exactly when it is an optional sign followed by digits with single underscores only between digits, at most 4300 digits |
| Numerals.SeparatorRejected | src/app.py:249-253 | a dimension starting with U+001C..U+001F is never a valid integer, although `strip()` would remove that character |
| Numerals.PlusSignIgnored | src/app.py:251 | a `+` before a digit group does not change the value read |
| Numerals.MinusSignNegates | src/app.py:251 | a `-` before a digit group is accepted exactly when the digits are, and negates their value |
| Numerals.LeadingZeroIgnored | src/app.py:251 | a leading zero does not change the value read, unless it pushes the digit count over the limit |
| Numerals.UnderscoreIgnored | src/app.py:251 | an underscore between two digit groups does not change the value read |
| Embedding.PayloadRoundTrip | src/app.py:53 | the request body names the model and carries exactly one input, which is the text as given and not stripped |
| Embedding.InterpretBody | src/app.py:73-122 | a vector is returned only when the reply is an object whose "embeddings" value is a one-element list holding a non-empty list whose length equals the expected dimension unless that is 0, and then it is that list unchanged; the call raises exactly on the non-object replies that raise `TypeError` |
| Embedding.Respond | src/app.py:50-122 | a caught request or decoding failure, and only that, yields None for the transport reason; a delivered reply accepted for `v` yields exactly `v`, and a returned vector is always one the reply was accepted for; the call raises exactly on the delivered non-object replies that raise `TypeError` |
| Embedding.GetEmbedding | src/app.py:38-122 | blank text sends nothing and yields None; other text sends exactly one POST, to the endpoint, with timeout 60 and the model and text in its payload; a reply to that POST accepted for `v` yields exactly `v`, and a returned vector is always an accepted one; a transport failure yields None; the call raises exactly on a delivered reply that raises `TypeError` |
| Embedding.WhitespaceTextSendsNothing | src/app.py:40-41 | whitespace-only text returns None with no request sent, whatever the service would answer |
| Embedding.ObjectBodyReturns | src/app.py:76-94 | an object reply always ends in a vector or None, never in an uncaught exception |
| Embedding.NegativeDimensionNeverEmbeds | src/app.py:99-103 | a negative expected dimension never yields a vector |
| Embedding.MismatchedDimensionRejects | src/app.py:99-103 | a nonzero expected dimension that differs from the vector's length yields None (dimension mismatch) |
| Embedding.LegacyFlatFormRejected | src/app.py:76-94 | a reply that has only the flat "embedding" key yields None |
| Embedding.ShapeFailures | src/app.py:76-94 | a missing "embeddings" key, a non-list value, an empty list, several entries, a sole non-list entry and `[[]]` all yield None, each for its own reason |
| Embedding.ThreeElementExample | src/app.py:76-104 | `{"embeddings": [[0.1, 0.2, 0.3]]}` yields the vector for dimension 3 and for 0, and None for dimension 4 |
| Reachability.CheckUrl | src/app.py:220-224 | the probe URL is the text before the first `/api/embeddings` plus `/`; failing that, the text before the first `/api/embed` plus `/`; failing both, the endpoint unchanged |
| Reachability.CheckUrlIsCutEndpoint | src/app.py:220-224 | the probe URL is the endpoint itself, or a prefix of it followed by `/` |
| Reachability.MarkerOrderMatters | src/app.py:220-224 | where `/api/embeddings` first occurs at i, `/api/embed` first occurs at some j <= i, the probe URL is the cut at i, and testing the shorter marker first would give the same URL exactly when j == i |
| Reachability.DefaultEndpointProbe | src/app.py:220-224 | the default endpoint `http://localhost:11434/api/embed` is probed at `http://localhost:11434/` |
| Config.Check | src/app.py:242-253 | check number k reports only an error of rank k |
| Config.Collect | src/app.py:241-253 | the errors of the first k checks are in reporting order, each is the error its check reports, and every error reported by those checks is listed |
| Config.ConfigErrors | src/app.py:241-253 | the error list is in the fixed order with no repeats; each "not set" error is present exactly when its setting is None or ""; the "not a valid integer" error, carrying the raw text, is present exactly when the dimension is non-empty and does not parse |
| Config.NoErrorsIffComplete | src/app.py:241-253 | there are no errors exactly when all six settings are non-empty and the dimension parses as an integer |
| Config.BadDimensionReportedOnce | src/app.py:247-253 | a present, non-integer dimension is reported last as "not a valid integer", and never as "not set" |
| Config.EmptyEnvironmentErrors | src/app.py:241-253 | with nothing set, the defaults leave exactly four errors: search endpoint, key, index, dimension |
| Config.Load | src/app.py:241-258 | start-up fails exactly when there are errors, and then reports exactly them; otherwise the settings are the environment values, with the defaults for an unset Ollama endpoint and model, and the dimension is the parsed integer |
| Search.ModeOf | src/app.py:279-283 | a label names a mode exactly when it is that mode's select-box label |
| Search.BuildSearch | src/app.py:339-389 | a request is issued exactly for the four labels, except vector and hybrid without a vector; it carries the text unless the mode is vector, the vector with k = top_k on field "embedding" for vector and hybrid only, and semantic options for semantic only; every request has the five-field select, top = top_k and the total count |
| Search.WantsEmbeddingIffSendsVector | src/app.py:323 | the substring test on the label asks for an embedding exactly for the modes that send a vector |
| Search.RunSearch | src/app.py:303-393 | an empty query does nothing; an embedding request is sent exactly when the label asks for one, the service was reachable and the query is not blank; any vector sent is the one accepted from that reply; an uncaught exception issues no search; the run ends in an uncaught exception exactly when the embedding reply was delivered and raises `TypeError` |
| Search.KeywordNeverSendsVector | src/app.py:339-345 | keyword search sends the text, no vector and no embedding request, whatever the embedding service would answer |
| Search.SemanticRequest | src/app.py:378-389 | semantic search sends the text with query type semantic, the configured semantic configuration, extractive captions and answers, and no vector |
| Search.VectorModesNeedEmbedding | src/app.py:323-377 | vector and hybrid search issue no request when the service is unreachable, the query is blank or the embedding was rejected |
| Search.HybridSendsBoth | src/app.py:323-373 | for a non-blank query whose embedding reply is accepted for `v`, hybrid search sends the text and exactly `v`, with k = top_k |
| Search.VectorSendsVector | src/app.py:323-362 | for a non-blank query whose embedding reply is accepted for `v`, vector search sends exactly `v` with k = top_k and no text |
| Search.RunSession | src/app.py:241-329 | configuration errors stop the session before the probe and the search; otherwise the probe requests the cut endpoint URL, a search runs exactly when the button was pressed with a non-empty query, that search is the dispatch for the loaded settings and the probe's answer, and an embedding request is sent exactly when the label asks for one, the probe succeeded and the query is not blank |
| Search.KeywordSession | src/app.py:241-345 | a valid session pressing keyword search with a non-empty query sends the keyword request and no embedding request, whatever the probe and the embedding service answer |

## Left out

- HTTP itself: `requests.post` and `requests.get`, the timeouts as behaviour, and the different exception classes. They become the `send` and `probe` parameters. Every caught failure is one `TransportFailure`.
- The Azure `SearchClient` and everything the index does with a request: ranking, vector search, reciprocal rank fusion, semantic reranking. The model stops at the request record. Client-construction failure (src/app.py:309-317) and exceptions raised by the service (src/app.py:391-397) are not modelled.
- The unreachable second embedding implementation (src/app.py:123-175): it never runs.
- `display_results` (src/app.py:176-212): presentation only, with float formatting.
- The 60-second cache of the reachability check, and the timing of the search: framework caching and wall-clock time.
- All `st.*` calls, debug prints and message wording. Configuration errors keep their identity and order; warnings about skipped searches are not modelled.
- Vector element values: JSON numbers are `real`, and Python's int/float distinction is not kept, because the code never inspects the elements.
- Numerals.ParseInt: Python's `int()` also accepts non-ASCII Unicode decimal digits; the model accepts only ASCII digits, underscores and the sign. The 4300-digit limit is CPython's default, which an interpreter setting can change.
- Search.RunSearch: `top_k` is any integer here; the slider's 1..20 range is a UI guarantee the dispatch code does not depend on.
- Loading `.env` (src/app.py:17-23): it is environment I/O. The model starts from the resulting environment values.
