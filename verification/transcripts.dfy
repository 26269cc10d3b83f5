/**
 The transcript records and what each HTTP handler of the service answers
 and leaves in the store, as functions of the store's contents and of the
 outside world's inputs (the uploaded file, the generation service's
 replies, the clock, a store failure).
 */
module Transcripts {
  import opened Redis

  datatype Option<T> = None | Some(value: T)

  /** What reading the multipart field `transcript` of a request yields:
      no such field, a file that cannot be saved and read back as text,
      or its text. */
  datatype Upload = Missing | Unreadable | Content(text: string)

  /** A response body: plain text, a JSON object of strings, or a JSON
      array of such objects. */
  datatype Json = Text(text: string) | Object(fields: Hash) | Array(items: seq<Hash>)

  /** A handler's reply, by HTTP status. */
  datatype Response =
    | Ok(body: Json)
    | BadRequest(body: Json)
    | NotFound(body: Json)
    | ServerError(body: Json)
  {
    function Status(): int {
      match this
      case Ok(_) => 200
      case BadRequest(_) => 400
      case NotFound(_) => 404
      case ServerError(_) => 500
    }
  }

  const NotFoundMessage := "Transcript not found"
  const CreateError := "Error creating transcript"
  const UpdateError := "Error updating transcript"
  /** The web framework's reply to an exception the handler does not catch. */
  const UncaughtError := Text("Internal Server Error")
  /** The web framework's reply to a request lacking a form field that a
      handler reads outside any try block. */
  const MissingFieldError := Text("Bad Request")

  /** Everything a handler does: its reply, the store it leaves behind and
      how many requests it sent to the text-generation service. */
  datatype Outcome = Outcome(response: Response, db: Db, calls: nat)

  /** The summariser: the generated text, or "" when the request to the
      generation service or the reading of its reply fails (`None`). */
  function Summarize(reply: Option<string>): (summary: string)
    ensures reply.None? ==> summary == ""
    ensures reply.Some? ==> summary == reply.value
  {
    match reply
    case Some(text) => text
    case None => ""
  }

  /** The record shape every stored hash must have: its own key under `id`,
      a `summary` and a `date_created`. */
  predicate HasShape(key: string, h: Hash) {
    "id" in h && h["id"] == key && "summary" in h && "date_created" in h
  }

  /** The shape invariant over the whole store. */
  predicate Shaped(db: Db) {
    forall k :: k in db ==> HasShape(k, db[k])
  }

  /** The mapping a new transcript is stored as. */
  function NewRecord(id: string, content: string, summary: string, now: string): (h: Hash)
    ensures HasShape(id, h)
    ensures h.Keys == {"transcript", "summary", "date_created", "id"}
  {
    map["transcript" := content, "summary" := summary, "date_created" := now, "id" := id]
  }

  /** The mapping an update writes over a stored transcript. It names
      neither `summary` nor `date_created`. */
  function UpdateFields(id: string, summary: string, now: string): (h: Hash)
    ensures "summary" !in h && "date_created" !in h
    ensures h.Keys == {"transcript", "date_updated", "id"}
  {
    map["transcript" := summary, "date_updated" := now, "id" := id]
  }

  /** POST /transcripts. The upload is read, summarised once, and the new
      record is written with HSET; any exception in between is caught and
      answered with 500. A failed summary is not an exception. */
  function Create(db: Db, id: string, upload: Upload, reply: Option<string>, now: string, storeFails: bool): (o: Outcome)
    ensures o.response.Ok? <==> upload.Content? && !storeFails
    ensures !o.response.Ok? ==> o.response == ServerError(Text(CreateError)) && o.db == db
    ensures o.response.Ok? ==> o.db.Keys == db.Keys + {id} && HasShape(id, o.db[id])
    ensures o.response.Ok? ==> "transcript" in o.db[id] && o.db[id]["transcript"] == upload.text
    ensures o.response.Ok? ==> o.db[id]["summary"] == Summarize(reply)
    ensures o.calls == if upload.Content? then 1 else 0
  {
    match upload
    case Content(text) =>
      if storeFails then
        Outcome(ServerError(Text(CreateError)), db, 1)
      else
        Outcome(Ok(Object(map["message" := "Transcript created", "id" := id])),
                WithFields(db, id, NewRecord(id, text, Summarize(reply), now)), 1)
    case _ => Outcome(ServerError(Text(CreateError)), db, 0)
  }

  /** PUT /transcripts/<id>. An absent id is answered 404 at once. The file
      field is read outside the try block. Inside it the upload is summarised,
      a second generation request is sent with that summary (its reply,
      `secondReply`, is parsed and then never used; `None` means the request
      or the parsing raised) and the FIRST summary is written under
      `transcript`. */
  function Update(db: Db, id: string, upload: Upload, reply: Option<string>,
                  secondReply: Option<string>, now: string, storeFails: bool): (o: Outcome)
    ensures o.response.NotFound? <==> id !in db
    ensures o.response.Ok? <==> id in db && upload.Content? && secondReply.Some? && !storeFails
    ensures !o.response.Ok? ==> o.db == db
    ensures o.calls == if id in db && upload.Content? then 2 else 0
    ensures o.response.Ok? ==> o.db.Keys == db.Keys && o.db[id].Keys == db[id].Keys + {"transcript", "date_updated", "id"}
    ensures o.response.Ok? ==> o.db[id]["transcript"] == Summarize(reply) && o.db[id]["id"] == id
    ensures o.response.Ok? ==> forall f :: f in db[id] && f !in {"transcript", "date_updated", "id"} ==> o.db[id][f] == db[id][f]
  {
    if id !in db then
      Outcome(NotFound(Text(NotFoundMessage)), db, 0)
    else
      match upload
      case Missing => Outcome(BadRequest(MissingFieldError), db, 0)
      case Unreadable => Outcome(ServerError(Text(UpdateError)), db, 0)
      case Content(_) =>
        if secondReply.None? || storeFails then
          Outcome(ServerError(Text(UpdateError)), db, 2)
        else
          Outcome(Ok(Object(map["message" := "Transcript updated"])),
                  WithFields(db, id, UpdateFields(id, Summarize(reply), now)), 2)
  }

  /** DELETE /transcripts/<id>. */
  function Delete(db: Db, id: string): (o: Outcome)
    ensures o.response.Ok? <==> id in db
    ensures o.response.NotFound? <==> id !in db
    ensures o.db.Keys == db.Keys - {id}
    ensures forall k :: k in o.db ==> o.db[k] == db[k]
    ensures o.calls == 0
  {
    if id !in db then
      Outcome(NotFound(Text(NotFoundMessage)), db, 0)
    else
      Outcome(Ok(Object(map["message" := "Transcript deleted"])), db - {id}, 0)
  }

  /** GET /transcripts/<id>: the stored hash, re-emitted with its own
      `summary` field; a hash without `summary` raises. */
  function Get(db: Db, id: string): (r: Response)
    ensures id !in db <==> r == NotFound(Object(map["message" := NotFoundMessage]))
    ensures r.Ok? <==> id in db && "summary" in db[id]
    ensures r.Ok? ==> r.body == Object(db[id])
    ensures r.ServerError? <==> id in db && "summary" !in db[id]
    ensures r.ServerError? ==> r.body == UncaughtError
  {
    if id !in db then
      NotFound(Object(map["message" := NotFoundMessage]))
    else
      var transcript := db[id];
      if "summary" !in transcript then
        ServerError(UncaughtError)
      else
        var reply := transcript["summary" := transcript["summary"]];
        assert reply == transcript;
        Ok(Object(reply))
  }

  /** One element of the list reply. */
  function ListEntry(id: string, dateCreated: string): (e: Hash)
    ensures e.Keys == {"id", "date_created"}
    ensures e["id"] == id && e["date_created"] == dateCreated
  {
    map["id" := id, "date_created" := dateCreated]
  }

  /** The list built by GET /transcripts when the store enumerates its keys
      in `order`; `None` when some hash has no `date_created`, which raises. */
  function ListEntries(order: seq<string>, db: Db): (r: Option<seq<Hash>>)
    requires forall i :: 0 <= i < |order| ==> order[i] in db
    ensures r.Some? <==> forall i :: 0 <= i < |order| ==> "date_created" in db[order[i]]
    ensures r.Some? ==> |r.value| == |order|
    ensures r.Some? ==> forall i :: 0 <= i < |order| ==>
              r.value[i] == ListEntry(order[i], db[order[i]]["date_created"])
  {
    if order == [] then Some([])
    else
      var key := order[|order| - 1];
      match ListEntries(order[..|order| - 1], db)
      case None => None
      case Some(entries) =>
        var info := db[key];
        if "date_created" in info then Some(entries + [ListEntry(key, info["date_created"])])
        else None
  }

  /** GET /transcripts for the key order `order`. */
  function List(order: seq<string>, db: Db): (r: Response)
    requires forall i :: 0 <= i < |order| ==> order[i] in db
    ensures r.Ok? || r == ServerError(UncaughtError)
    ensures r.ServerError? <==> exists i :: 0 <= i < |order| && "date_created" !in db[order[i]]
    ensures r.Ok? ==> r.body.Array? && |r.body.items| == |order|
    ensures r.Ok? ==> forall i :: 0 <= i < |order| ==>
              r.body.items[i] == ListEntry(order[i], db[order[i]]["date_created"])
  {
    match ListEntries(order, db)
    case Some(entries) => Ok(Array(entries))
    case None => ServerError(UncaughtError)
  }

  /** Whatever order the store lists its keys in, the list raises exactly
      when some stored hash has no `date_created`, and otherwise holds one
      entry per stored key. */
  lemma ListOutcomeAnyOrder(order: seq<string>, db: Db)
    requires Enumerates(order, db.Keys)
    ensures List(order, db).ServerError? <==> exists k :: k in db && "date_created" !in db[k]
    ensures List(order, db).Ok? ==> |List(order, db).body.items| == |db|
  {
    if ListEntries(order, db).None? {
      var i :| 0 <= i < |order| && "date_created" !in db[order[i]];
      assert order[i] in db;
    } else {
      forall k | k in db ensures "date_created" in db[k] {
        assert k in order;
      }
      EnumerationLength(order, db.Keys);
      assert |db.Keys| == |db|;
    }
  }
}
