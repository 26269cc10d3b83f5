# Meeting summarizer: the transcript record lifecycle

The meeting summarizer is a small Flask service. It accepts an uploaded
meeting transcript and asks an Ollama text-generation service for a bulleted
summary. It stores each transcript as a Redis hash keyed by a uuid4, and it
offers create, list, get, update and delete endpoints over those records.
This project models that lifecycle in Dafny and proves what each handler
does to the store and what it answers.

- `redis.dfy`, module `Redis`: the store. A `Hash` maps field names to
  strings. A `Db` maps keys to hashes. `Overlay` and `WithFields` give HSET's
  semantics: the given fields are written over the existing hash and every
  other field survives. Class `Store` is the process-wide connection. It has
  `Exists`, `HGetAll`, `HSet`, `Delete` and `Keys`. `Keys` returns the keys
  in an order the store picks (`Enumerates`).
- `transcripts.dfy`, module `Transcripts`: the record mappings built by
  create (`NewRecord`) and update (`UpdateFields`), and the record-shape
  invariant (`HasShape`, `Shaped`). It also holds each handler's reply and
  resulting store as a pure function of the old store and the outside inputs:
  `Create`, `Update`, `Delete`, `Get`, and `ListEntries`/`List` for a given
  key order. An `Outcome` also counts the requests sent to the generation
  service.
- `api.dfy`, module `Api`: the handlers as methods on the shared `Store`.
  They follow the source step by step: EXISTS check, then read the upload,
  summarise, write with HSET or DEL. Each method is proved to produce exactly
  the outcome of the matching `Transcripts` function. `ListTranscripts` is
  the source's loop over `KEYS *`. Three client methods replay the
  sequences in `tests/test_api.py`.
- `properties.dfy`, module `TranscriptProperties`: lemmas for each handler's
  contract, the overlay behaviour of update, and the shape invariant. The
  invariant is preserved by every handler and by every sequence of requests
  (`Run`) served one at a time. It is sufficient to keep list and get from
  raising `KeyError`: get needs `summary` and list needs `date_created`.

The outside world is represented by inputs:

- The upload is an `Upload`: `Missing` (no `transcript` form field),
  `Unreadable` (saving or reading the file back raised) or `Content(text)`.
- The summariser's reply is an `Option<string>`. `None` means the generation
  request or the reading of its reply raised, and `summarize` then yields `""`.
- The second generation request in update is also an `Option<string>`.
  `None` means it raised. Any reply it returns is discarded.
- The clock is an opaque timestamp string.
- A failing HSET is the boolean `storeFails`.
- `uuid4` is the precondition `id !in store.db` on `Api.CreateTranscript`.

Behaviour reproduced as the code has it:

- Update stores the FIRST summary under `transcript` (api.py:172). The result
  of the second generation request (api.py:165-170) is never used. That
  request can still fail the update, because it sits outside `summarize`'s
  try block. The second reply is parsed and dropped, so the stored text is a
  single summary, not a double one. The HSET overlay keeps `summary` and
  `date_created` from the create.
- In update, the form field is read before the try block (api.py:162). A
  request without it is answered by the framework with 400 (`BadRequest`)
  outside debug mode; the entry point's `app.run(debug=True)` (api.py:199)
  turns it into a 500 traceback page instead, which is not modelled.
  In create the same read is inside the try block (api.py:79), so it gives 500.
- Get re-emits the stored hash with its own `summary` (api.py:143-145), which
  is the hash unchanged. Get on a hash without `summary`, and list on a hash
  without `date_created`, raise and get the framework's 500 (`UncaughtError`).

## Model

| member | source | states |
|---|---|---|
| Redis.Overlay | summarizer/api/api.py:176 | HSET writes every given field over the hash and keeps every field it does not name |
| Redis.WithFields | summarizer/api/api.py:87 | HSET on a key adds that key (starting from an empty hash when absent), overlays its fields and leaves every other key's hash as it was |
| Redis.EnumerationLength | summarizer/api/api.py:125 | a listing of the keys that names each key once is exactly as long as the set of keys |
| Redis.Store.constructor | summarizer/api/api.py:14 | a new connection sees whatever the server's database already holds |
| Redis.Store.Exists | summarizer/api/api.py:139 | EXISTS holds exactly when the key is stored |
| Redis.Store.HGetAll | summarizer/api/api.py:141 | HGETALL returns the stored hash of a present key and the empty hash of an absent one |
| Redis.Store.HSet | summarizer/api/api.py:87 | the database afterwards is the overlay of the fields at that key |
| Redis.Store.Delete | summarizer/api/api.py:194 | DEL removes exactly that key |
| Redis.Store.Keys | summarizer/api/api.py:125 | KEYS returns every stored key exactly once, in an order of the store's choosing |
| Transcripts.NewRecord | summarizer/api/api.py:81-86 | the created mapping has exactly the fields transcript, summary, date_created and id, and has the record shape for its id |
| Transcripts.UpdateFields | summarizer/api/api.py:171-175 | the update mapping has exactly transcript, date_updated and id, and names neither summary nor date_created |
| Transcripts.Summarize | summarizer/api/api.py:94-115 | the summariser yields the generated text, and the empty string when the request or the reading of its reply fails |
| Transcripts.Create | summarizer/api/api.py:66-92 | create answers 200 exactly when the upload is readable and the write succeeds, and then adds the id with a shaped record holding the content and the summary; otherwise it answers the create error with the store unchanged; one generation request is sent exactly when the upload is readable |
| Transcripts.Update | summarizer/api/api.py:148-180 | update answers 404 exactly when the id is absent and 200 exactly when it is present, the upload readable, the second request answered and the write successful; on success only transcript (the first summary), date_updated and id are written and every other field is kept; otherwise the store is unchanged; two generation requests are sent exactly when the id is present and the upload readable |
| Transcripts.Delete | summarizer/api/api.py:182-195 | delete answers 200 exactly when the id is stored and 404 exactly when it is not; it removes exactly that key, keeps every other record and sends no generation request |
| Transcripts.ListEntry | summarizer/api/api.py:130 | a list element has exactly the fields id and date_created, with the given values |
| Transcripts.List | summarizer/api/api.py:117-131 | for a given key order the list answers 500 exactly when some listed hash lacks date_created, and otherwise 200 with one {id, date_created} object per key in that order |
| Transcripts.Get | summarizer/api/api.py:134-145 | 404 with the not-found message exactly when the id is absent; 200 with the stored hash unchanged exactly when it is present with a summary; 500 exactly when the stored hash lacks summary |
| Transcripts.ListEntries | summarizer/api/api.py:125-131 | the list is built exactly when every listed hash has date_created, and then holds one {id, date_created} object per key, in the store's key order |
| Api.CreateTranscript | summarizer/api/api.py:66-92 | reply, resulting store and number of generation requests are those of Transcripts.Create |
| Transcripts.ListOutcomeAnyOrder | summarizer/api/api.py:125-131 | for every key order the store may use, the list answers 500 exactly when some stored hash lacks date_created, and otherwise has one entry per stored key |
| Api.ListTranscripts | summarizer/api/api.py:117-131 | the keys are visited in an order that lists each stored key once, the reply is the list built for that order, it is 500 exactly when some stored hash lacks date_created, and otherwise it has as many entries as stored keys |
| Api.UpdateTranscript | summarizer/api/api.py:148-180 | reply, resulting store and number of generation requests are those of Transcripts.Update |
| Api.DeleteTranscript | summarizer/api/api.py:182-195 | reply and resulting store are those of Transcripts.Delete |
| Api.CreateThenFetch | tests/test_api.py:10-26 | uploading a transcript answers 200 with its id, and fetching that id then answers 200 with the record built from the upload |
| Api.DeleteTwice | tests/test_api.py:40-43 | deleting a stored transcript answers 200 with the deleted message and a second delete answers 404 |
| Api.CreateThenUpdate | tests/test_api.py:46-56 | updating a just-created transcript answers 200 with the updated message and the record can still be fetched |
| TranscriptProperties.CreateAddsRecord | summarizer/api/api.py:76-89 | with a fresh id and readable upload, create adds exactly one key holding transcript = content, summary = summariser result, date_created = now and id = key; other records are unchanged and one generation request is sent |
| TranscriptProperties.SummaryFailureIsNonFatal | summarizer/api/api.py:104-115 | when the summariser fails, create still answers 200 and stores the record with an empty summary |
| TranscriptProperties.CreateFailureLeavesStore | summarizer/api/api.py:78-92 | a missing or unreadable upload or a failed write answers 500 with the create error and leaves the store unchanged |
| TranscriptProperties.GetAbsentOrStored | summarizer/api/api.py:139-145 | on a shaped store, get of an absent id answers 404 and get of a present id answers 200 with its stored hash unchanged |
| TranscriptProperties.CreateThenGet | summarizer/api/api.py:81-145 | get after a create with a fresh id returns exactly the record built from the upload |
| TranscriptProperties.UpdateAbsent | summarizer/api/api.py:157-160 | update of an absent id answers 404, leaves the store unchanged and sends no generation request |
| TranscriptProperties.UpdateOverlays | summarizer/api/api.py:164-177 | a successful update overlays exactly transcript := first summary, date_updated := now and id := key; every other field (summary, date_created) and every other record keeps its value; two generation requests are sent |
| TranscriptProperties.UpdateDiscardsSecondReply | summarizer/api/api.py:165-176 | the reply to the second generation request has no effect on the update's outcome |
| TranscriptProperties.UpdateFailureLeavesStore | summarizer/api/api.py:162-180 | an unreadable upload, a failed second request or a failed write answers 500, a missing form field answers 400, and the store is unchanged in each case |
| TranscriptProperties.UpdateThenGet | summarizer/api/api.py:143-176 | after an update, get still shows the original summary and date_created, with the first summary under transcript |
| TranscriptProperties.DeleteRemoves | summarizer/api/api.py:191-195 | delete of a present id removes exactly that key and answers the deleted message; of an absent id answers 404 and changes nothing |
| TranscriptProperties.SecondDeleteIsNotFound | summarizer/api/api.py:191-195 | deleting the same id twice answers 200 then 404 |
| TranscriptProperties.CreateKeepsShape | summarizer/api/api.py:81-87 | create keeps every stored hash shaped (id equal to its key, summary, date_created) |
| TranscriptProperties.UpdateKeepsShape | summarizer/api/api.py:171-176 | update keeps every stored hash shaped, because the overlay keeps summary and date_created and rewrites id with the key |
| TranscriptProperties.DeleteKeepsShape | summarizer/api/api.py:194 | delete keeps every remaining hash shaped |
| TranscriptProperties.ListEntriesUnderShape | summarizer/api/api.py:127-129 | on a shaped store the list loop never meets a hash without date_created |
| TranscriptProperties.ListUnderShape | summarizer/api/api.py:125-131 | on a shaped store list answers 200 with as many entries as stored keys, each entry an {id, date_created} of a stored key, each key exactly once |
| TranscriptProperties.GetNeedsSummary | summarizer/api/api.py:141-143 | a stored hash without summary makes get of it answer 500 |
| TranscriptProperties.ListNeedsDateCreated | summarizer/api/api.py:125-129 | a stored hash without date_created makes list answer 500 whatever the key order |
| TranscriptProperties.DeleteDuringUpdateBreaksShape | summarizer/api/api.py:164-176 | a delete served while an update waits on its generation requests lets the update's HSET recreate the key without summary and date_created, and get of it then answers 500 |
| TranscriptProperties.RunKeepsShape | summarizer/api/api.py:66-195 | from a shaped store, any sequence of create, update, delete and get requests leaves a shaped store |
| TranscriptProperties.RunFetchesNeverRaise | summarizer/api/api.py:134-145 | from a shaped store, every get in any sequence of requests answers 200 or 404, never 500 |

## Left out

- Flask routing, `request.files`, `jsonify`, `render_template`, and the `index` handler that posts to its own endpoint (summarizer/api/api.py:24-46): web plumbing and HTML rendering.
- `get_file_contents` writing the upload to disk and reading it back (summarizer/api/api.py:48-64): file I/O. It is the `Upload` input.
- The Ollama HTTP requests, the JSON parsing of their replies and the prompt text (summarizer/api/api.py:19, 105-111, 165-170): network calls. They are the optional reply strings.
- `uuid.uuid4()` and `datetime.now()` with its format string (summarizer/api/api.py:76, 84, 173): randomness and the clock. They are the fresh-id precondition and an opaque timestamp string.
- Logging and `print` (summarizer/api/api.py:10-11, 142).
- Concurrent requests on the same id: handlers are modelled one at a time, so `RunKeepsShape` and `RunFetchesNeverRaise` hold only for requests served one after another. Flask's server is threaded by default. A delete served while an update waits on its two generation requests lets the HSET at api.py:176 recreate the key with only `transcript`, `date_updated` and `id`; get (api.py:143) and list (api.py:129) then raise. `DeleteDuringUpdateBreaksShape` shows this one interleaving; interleavings in general are not modelled.
- A store connection failure in EXISTS, KEYS, HGETALL or DEL: these calls are outside any try block and would give the framework's 500. Only a failing HSET inside the try blocks of create and update is modelled.
- Flask's debug mode (api.py:199), which answers a missing form field in update with a 500 traceback page rather than 400.
- The exact bodies of the framework's 400 and 500 pages: modelled as fixed texts (`MissingFieldError`, `UncaughtError`).
- Keys of types other than hash, and Redis dropping a hash that becomes empty: the handlers never create either.
- Api.ListTranscripts: the key order the store really uses is not modelled. The contract holds for every order that lists each key once.
