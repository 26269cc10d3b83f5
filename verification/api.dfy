/**
 The HTTP handlers of the transcript service, as methods that work on the
 one shared store connection the way the handlers do: EXISTS before any
 read, update or delete, HGETALL to read, HSET to write, DEL to remove.
 The web framework, the upload on disk, the clock, the id generator and
 the text-generation service are inputs (see Transcripts).
 */
module Api {
  import opened Redis
  import opened Transcripts

  /** POST /transcripts. `id` is the freshly generated uuid4, which names no
      stored transcript. */
  method CreateTranscript(store: Store, id: string, upload: Upload, reply: Option<string>,
                          now: string, storeFails: bool)
    returns (r: Response, calls: nat)
    requires id !in store.db
    modifies store
    ensures Outcome(r, store.db, calls) == Create(old(store.db), id, upload, reply, now, storeFails)
  {
    calls := 0;
    if !upload.Content? {
      r := ServerError(Text(CreateError));
      return;
    }
    var fileContents := upload.text;
    var summary := Summarize(reply);
    calls := calls + 1;
    var entry := NewRecord(id, fileContents, summary, now);
    if storeFails {
      r := ServerError(Text(CreateError));
      return;
    }
    assert "id" in entry;
    store.HSet(id, entry);
    r := Ok(Object(map["message" := "Transcript created", "id" := id]));
  }

  /** GET /transcripts: one {id, date_created} object per key, in the order
      the store lists its keys (`order`). */
  method ListTranscripts(store: Store) returns (r: Response, ghost order: seq<string>)
    ensures Enumerates(order, store.db.Keys)
    ensures r == List(order, store.db)
    ensures r.ServerError? <==> exists k :: k in store.db && "date_created" !in store.db[k]
    ensures r.Ok? ==> r.body.Array? && |r.body.items| == |store.db|
  {
    var keys := store.Keys();
    order := keys;
    var transcripts: seq<Hash> := [];
    for i := 0 to |keys|
      invariant ListEntries(keys[..i], store.db) == Some(transcripts)
    {
      var info := store.HGetAll(keys[i]);
      if "date_created" !in info {
        r := ServerError(UncaughtError);
        ListOutcomeAnyOrder(order, store.db);
        return;
      }
      var dateCreated := info["date_created"];
      transcripts := transcripts + [ListEntry(keys[i], dateCreated)];
      assert keys[..i + 1][..i] == keys[..i];
    }
    assert keys[..|keys|] == keys;
    r := Ok(Array(transcripts));
    ListOutcomeAnyOrder(order, store.db);
  }

  /** PUT /transcripts/<id>. */
  method UpdateTranscript(store: Store, id: string, upload: Upload, reply: Option<string>,
                          secondReply: Option<string>, now: string, storeFails: bool)
    returns (r: Response, calls: nat)
    modifies store
    ensures Outcome(r, store.db, calls) == Update(old(store.db), id, upload, reply, secondReply, now, storeFails)
  {
    calls := 0;
    if !store.Exists(id) {
      r := NotFound(Text(NotFoundMessage));
      return;
    }
    if upload.Missing? {
      r := BadRequest(MissingFieldError);
      return;
    }
    if upload.Unreadable? {
      r := ServerError(Text(UpdateError));
      return;
    }
    var summary := Summarize(reply);
    calls := calls + 1;
    // The second generation request, sent with the first summary.
    calls := calls + 1;
    if secondReply.None? {
      r := ServerError(Text(UpdateError));
      return;
    }
    var entry := UpdateFields(id, summary, now);
    if storeFails {
      r := ServerError(Text(UpdateError));
      return;
    }
    assert "id" in entry;
    store.HSet(id, entry);
    r := Ok(Object(map["message" := "Transcript updated"]));
  }

  /** DELETE /transcripts/<id>. */
  method DeleteTranscript(store: Store, id: string) returns (r: Response)
    modifies store
    ensures Outcome(r, store.db, 0) == Delete(old(store.db), id)
  {
    if !store.Exists(id) {
      r := NotFound(Text(NotFoundMessage));
      return;
    }
    store.Delete(id);
    r := Ok(Object(map["message" := "Transcript deleted"]));
  }

  /** The upload-then-fetch sequence the test suite uses to make a
      transcript: the create answers 200 with the id and the fetch answers
      200 with the stored record. */
  method CreateThenFetch(store: Store, id: string, text: string, reply: Option<string>, now: string)
    returns (created: Response, fetched: Response)
    requires id !in store.db
    modifies store
    ensures created == Ok(Object(map["message" := "Transcript created", "id" := id]))
    ensures fetched == Ok(Object(NewRecord(id, text, Summarize(reply), now)))
    ensures store.db == old(store.db)[id := NewRecord(id, text, Summarize(reply), now)]
  {
    var calls;
    created, calls := CreateTranscript(store, id, Content(text), reply, now, false);
    fetched := Get(store.db, id);
  }

  /** Deleting the same transcript twice: 200 then 404. */
  method DeleteTwice(store: Store, id: string) returns (first: Response, second: Response)
    requires id in store.db
    modifies store
    ensures first == Ok(Object(map["message" := "Transcript deleted"]))
    ensures second == NotFound(Text(NotFoundMessage))
    ensures store.db == old(store.db) - {id}
  {
    first := DeleteTranscript(store, id);
    second := DeleteTranscript(store, id);
  }

  /** Updating a transcript the suite has just created: 200 with the
      update message. */
  method CreateThenUpdate(store: Store, id: string, text: string, newText: string,
                          reply: Option<string>, newReply: Option<string>, secondReply: string,
                          created: string, updated: string)
    returns (r: Response)
    requires id !in store.db
    modifies store
    ensures r == Ok(Object(map["message" := "Transcript updated"]))
    ensures Get(store.db, id).Ok?
  {
    var c, calls;
    c, calls := CreateTranscript(store, id, Content(text), reply, created, false);
    r, calls := UpdateTranscript(store, id, Content(newText), newReply, Some(secondReply), updated, false);
  }
}
