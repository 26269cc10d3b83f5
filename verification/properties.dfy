/**
 What the transcript handlers promise, proved about the outcome functions
 of module Transcripts (which the handler methods of module Api are proved
 to follow): the effect of each handler on the store, the 404 and 500
 paths, the field overlay of an update, and the record-shape invariant
 that keeps the list and fetch handlers from raising.
 */
module TranscriptProperties {
  import opened Redis
  import opened Transcripts

  // ---------------------------------------------------------------------
  // Create

  /** A create with a fresh id and a readable upload adds exactly one
      record, at that id, holding the content, the summary, the clock and
      the id itself; one generation request is sent. */
  lemma CreateAddsRecord(db: Db, id: string, text: string, reply: Option<string>, now: string)
    requires id !in db
    ensures var o := Create(db, id, Content(text), reply, now, false);
      && o.response == Ok(Object(map["message" := "Transcript created", "id" := id]))
      && o.db.Keys == db.Keys + {id}
      && (forall k :: k in db ==> o.db[k] == db[k])
      && o.db[id] == NewRecord(id, text, Summarize(reply), now)
      && o.db[id]["transcript"] == text
      && o.db[id]["summary"] == Summarize(reply)
      && o.db[id]["date_created"] == now
      && o.db[id]["id"] == id
      && o.calls == 1
  {
  }

  /** A failed summarisation does not fail the create: the record is
      stored with an empty summary. */
  lemma SummaryFailureIsNonFatal(db: Db, id: string, text: string, now: string)
    ensures var o := Create(db, id, Content(text), None, now, false);
      && o.response.Ok?
      && id in o.db
      && o.db[id]["summary"] == ""
      && o.db[id]["transcript"] == text
  {
  }

  /** A missing or unreadable upload, or a store that fails the write,
      gives 500 and leaves the store as it was. */
  lemma CreateFailureLeavesStore(db: Db, id: string, upload: Upload, reply: Option<string>,
                                 now: string, storeFails: bool)
    requires !upload.Content? || storeFails
    ensures var o := Create(db, id, upload, reply, now, storeFails);
      && o.response == ServerError(Text(CreateError))
      && o.response.Status() == 500
      && o.db == db
      && o.calls == (if upload.Content? then 1 else 0)
  {
  }

  // ---------------------------------------------------------------------
  // Get

  /** A fetch of an id with no record is 404; a fetch of a stored record
      returns that record's fields unchanged. */
  lemma GetAbsentOrStored(db: Db, id: string)
    requires Shaped(db)
    ensures id !in db ==> Get(db, id).Status() == 404
    ensures id in db ==> Get(db, id) == Ok(Object(db[id]))
  {
  }

  /** Creating a transcript and fetching it gives back exactly the record
      built from the upload. */
  lemma CreateThenGet(db: Db, id: string, text: string, reply: Option<string>, now: string)
    ensures var o := Create(db, id, Content(text), reply, now, false);
      id !in db ==> Get(o.db, id) == Ok(Object(NewRecord(id, text, Summarize(reply), now)))
  {
  }

  // ---------------------------------------------------------------------
  // Update

  /** An update of an absent id is 404, sends no generation request and
      leaves the store as it was. */
  lemma UpdateAbsent(db: Db, id: string, upload: Upload, reply: Option<string>,
                     secondReply: Option<string>, now: string, storeFails: bool)
    requires id !in db
    ensures var o := Update(db, id, upload, reply, secondReply, now, storeFails);
      && o.response == NotFound(Text(NotFoundMessage))
      && o.db == db
      && o.calls == 0
  {
  }

  /** A successful update overlays exactly `transcript` (the first summary),
      `date_updated` and `id`; every other field of the record, among them
      `summary` and `date_created`, keeps its value, and so does every other
      record. */
  lemma UpdateOverlays(db: Db, id: string, text: string, reply: Option<string>,
                       secondReply: string, now: string)
    requires id in db
    ensures var o := Update(db, id, Content(text), reply, Some(secondReply), now, false);
      && o.response == Ok(Object(map["message" := "Transcript updated"]))
      && o.calls == 2
      && o.db.Keys == db.Keys
      && (forall k :: k in db && k != id ==> o.db[k] == db[k])
      && o.db[id].Keys == db[id].Keys + {"transcript", "date_updated", "id"}
      && o.db[id]["transcript"] == Summarize(reply)
      && o.db[id]["date_updated"] == now
      && o.db[id]["id"] == id
      && (forall f :: f in db[id] && f !in {"transcript", "date_updated", "id"} ==> o.db[id][f] == db[id][f])
      && ("summary" in db[id] ==> o.db[id]["summary"] == db[id]["summary"])
      && ("date_created" in db[id] ==> o.db[id]["date_created"] == db[id]["date_created"])
  {
  }

  /** The reply to the second generation request is never used: any two
      successful replies lead to the same outcome. */
  lemma UpdateDiscardsSecondReply(db: Db, id: string, upload: Upload, reply: Option<string>,
                                  a: string, b: string, now: string, storeFails: bool)
    ensures Update(db, id, upload, reply, Some(a), now, storeFails)
         == Update(db, id, upload, reply, Some(b), now, storeFails)
  {
  }

  /** An unreadable upload, a failed second generation request or a failed
      write gives 500; a request without the file field gives 400; in each
      case the store is left as it was. */
  lemma UpdateFailureLeavesStore(db: Db, id: string, upload: Upload, reply: Option<string>,
                                 secondReply: Option<string>, now: string, storeFails: bool)
    requires id in db
    requires !upload.Content? || secondReply.None? || storeFails
    ensures var o := Update(db, id, upload, reply, secondReply, now, storeFails);
      && o.db == db
      && (upload.Missing? ==> o.response.Status() == 400 && o.calls == 0)
      && (upload.Unreadable? ==> o.response == ServerError(Text(UpdateError)) && o.calls == 0)
      && (upload.Content? ==> o.response == ServerError(Text(UpdateError)) && o.calls == 2)
  {
  }

  /** After a successful update, a fetch still shows the summary and the
      creation date the record was created with. */
  lemma UpdateThenGet(db: Db, id: string, text: string, reply: Option<string>,
                      secondReply: string, now: string)
    requires Shaped(db) && id in db
    ensures var o := Update(db, id, Content(text), reply, Some(secondReply), now, false);
      && Get(o.db, id).Ok?
      && Get(o.db, id).body.fields["summary"] == db[id]["summary"]
      && Get(o.db, id).body.fields["date_created"] == db[id]["date_created"]
      && Get(o.db, id).body.fields["transcript"] == Summarize(reply)
  {
    var o := Update(db, id, Content(text), reply, Some(secondReply), now, false);
    UpdateOverlays(db, id, text, reply, secondReply, now);
    assert "summary" in o.db[id];
  }

  // ---------------------------------------------------------------------
  // Delete

  /** A delete of a stored id removes exactly that key; of an absent id it
      is 404 and changes nothing. */
  lemma DeleteRemoves(db: Db, id: string)
    ensures var o := Delete(db, id);
      && (id in db ==> o.response == Ok(Object(map["message" := "Transcript deleted"])))
      && (id !in db ==> o.response == NotFound(Text(NotFoundMessage)))
      && o.db.Keys == db.Keys - {id}
      && (forall k :: k in o.db ==> o.db[k] == db[k])
  {
  }

  /** Deleting the same id twice: 200, then 404. */
  lemma SecondDeleteIsNotFound(db: Db, id: string)
    requires id in db
    ensures var first := Delete(db, id);
      && first.response.Status() == 200
      && Delete(first.db, id).response.Status() == 404
  {
  }

  // ---------------------------------------------------------------------
  // The record-shape invariant

  /** Create, update and delete keep every stored hash shaped. */
  lemma CreateKeepsShape(db: Db, id: string, upload: Upload, reply: Option<string>,
                         now: string, storeFails: bool)
    requires Shaped(db)
    ensures Shaped(Create(db, id, upload, reply, now, storeFails).db)
  {
  }

  lemma UpdateKeepsShape(db: Db, id: string, upload: Upload, reply: Option<string>,
                         secondReply: Option<string>, now: string, storeFails: bool)
    requires Shaped(db)
    ensures Shaped(Update(db, id, upload, reply, secondReply, now, storeFails).db)
  {
  }

  lemma DeleteKeepsShape(db: Db, id: string)
    requires Shaped(db)
    ensures Shaped(Delete(db, id).db)
  {
  }

  /** On a shaped store every hash has a `date_created`, so the list is
      built without raising. */
  lemma ListEntriesUnderShape(order: seq<string>, db: Db)
    requires Shaped(db) && Enumerates(order, db.Keys)
    ensures ListEntries(order, db).Some?
  {
    forall i | 0 <= i < |order| ensures "date_created" in db[order[i]] {
      assert HasShape(order[i], db[order[i]]);
    }
  }

  /** On a shaped store the list handler does not raise: it returns one
      {id, date_created} object per stored key, each key exactly once. */
  lemma ListUnderShape(order: seq<string>, db: Db)
    requires Shaped(db) && Enumerates(order, db.Keys)
    ensures List(order, db).Ok?
    ensures var items := List(order, db).body.items;
      && |items| == |db|
      && (forall i :: 0 <= i < |items| ==>
            exists k :: k in db && items[i] == ListEntry(k, db[k]["date_created"]))
      && (forall k :: k in db ==>
            exists i :: 0 <= i < |items| && items[i] == ListEntry(k, db[k]["date_created"]))
      && (forall i, j :: 0 <= i < j < |items| ==> items[i]["id"] != items[j]["id"])
  {
    ListEntriesUnderShape(order, db);
    var items := ListEntries(order, db).value;
    assert List(order, db) == Ok(Array(items));
    EnumerationLength(order, db.Keys);
    assert |db.Keys| == |db|;
    forall i | 0 <= i < |items|
      ensures exists k :: k in db && items[i] == ListEntry(k, db[k]["date_created"])
    {
      assert order[i] in db && items[i] == ListEntry(order[i], db[order[i]]["date_created"]);
    }
    forall k | k in db
      ensures exists i :: 0 <= i < |items| && items[i] == ListEntry(k, db[k]["date_created"])
    {
      assert k in order;
      var i :| 0 <= i < |order| && order[i] == k;
      assert items[i] == ListEntry(k, db[k]["date_created"]);
    }
    forall i, j | 0 <= i < j < |items| ensures items[i]["id"] != items[j]["id"] {
      assert items[i]["id"] == order[i] && items[j]["id"] == order[j];
    }
  }

  /** A stored hash without `summary` makes the fetch of it raise: the
      `summary` part of the shape is what get relies on. */
  lemma GetNeedsSummary(db: Db, id: string)
    requires id in db && "summary" !in db[id]
    ensures Get(db, id).Status() == 500
  {
  }

  /** A stored hash without `date_created` makes the list raise, whatever
      the key order: the `date_created` part of the shape is what list
      relies on. */
  lemma ListNeedsDateCreated(order: seq<string>, db: Db, id: string)
    requires Enumerates(order, db.Keys)
    requires id in db && "date_created" !in db[id]
    ensures List(order, db).Status() == 500
  {
    assert id in order;
    var i :| 0 <= i < |order| && order[i] == id;
    assert "date_created" !in db[order[i]];
  }

  /** Handlers served concurrently can break the shape: when a delete is
      served while an update waits on its generation requests, the update's
      HSET recreates the key with only `transcript`, `date_updated` and
      `id`, and a later fetch of it raises. */
  lemma DeleteDuringUpdateBreaksShape(db: Db, id: string, summary: string, now: string)
    requires id in db
    ensures var racy := WithFields(Delete(db, id).db, id, UpdateFields(id, summary, now));
      && !HasShape(id, racy[id])
      && Get(racy, id).Status() == 500
  {
  }

  // ---------------------------------------------------------------------
  // Lifecycle: any sequence of requests

  /** A request to one of the handlers, with what the outside world
      supplies to it. */
  datatype Request =
    | CreateReq(id: string, upload: Upload, reply: Option<string>, now: string, storeFails: bool)
    | UpdateReq(id: string, upload: Upload, reply: Option<string>, secondReply: Option<string>,
                now: string, storeFails: bool)
    | DeleteReq(id: string)
    | GetReq(id: string)

  function Step(db: Db, req: Request): Outcome {
    match req
    case CreateReq(id, upload, reply, now, fails) => Create(db, id, upload, reply, now, fails)
    case UpdateReq(id, upload, reply, second, now, fails) => Update(db, id, upload, reply, second, now, fails)
    case DeleteReq(id) => Delete(db, id)
    case GetReq(id) => Outcome(Get(db, id), db, 0)
  }

  /** The store after serving `reqs` one after another. */
  function Run(db: Db, reqs: seq<Request>): Db
    decreases |reqs|
  {
    if reqs == [] then db else Run(Step(db, reqs[0]).db, reqs[1..])
  }

  /** The replies to `reqs` served one after another. */
  function Replies(db: Db, reqs: seq<Request>): (rs: seq<Response>)
    ensures |rs| == |reqs|
    decreases |reqs|
  {
    if reqs == [] then []
    else [Step(db, reqs[0]).response] + Replies(Step(db, reqs[0]).db, reqs[1..])
  }

  /** Starting from a shaped store (the empty store is one), every sequence
      of requests leaves a shaped store. */
  lemma {:induction false} RunKeepsShape(db: Db, reqs: seq<Request>)
    requires Shaped(db)
    ensures Shaped(Run(db, reqs))
    decreases |reqs|
  {
    if reqs != [] {
      var req := reqs[0];
      match req {
      case CreateReq(id, upload, reply, now, fails) => CreateKeepsShape(db, id, upload, reply, now, fails);
      case UpdateReq(id, upload, reply, second, now, fails) => UpdateKeepsShape(db, id, upload, reply, second, now, fails);
      case DeleteReq(id) => DeleteKeepsShape(db, id);
      case GetReq(_) =>
      }
      RunKeepsShape(Step(db, req).db, reqs[1..]);
    }
  }

  /** Starting from a shaped store, no fetch in any sequence of requests
      raises: each is answered 200 or 404. */
  lemma {:induction false} RunFetchesNeverRaise(db: Db, reqs: seq<Request>)
    requires Shaped(db)
    ensures forall i :: 0 <= i < |reqs| && reqs[i].GetReq? ==>
              Replies(db, reqs)[i].Status() in {200, 404}
    decreases |reqs|
  {
    if reqs != [] {
      var req := reqs[0];
      var next := Step(db, req).db;
      match req {
      case CreateReq(id, upload, reply, now, fails) => CreateKeepsShape(db, id, upload, reply, now, fails);
      case UpdateReq(id, upload, reply, second, now, fails) => UpdateKeepsShape(db, id, upload, reply, second, now, fails);
      case DeleteReq(id) => DeleteKeepsShape(db, id);
      case GetReq(id) => GetAbsentOrStored(db, id);
      }
      RunFetchesNeverRaise(next, reqs[1..]);
      forall i | 1 <= i < |reqs| && reqs[i].GetReq?
        ensures Replies(db, reqs)[i].Status() in {200, 404}
      {
        assert Replies(db, reqs)[i] == Replies(next, reqs[1..])[i - 1];
        assert reqs[1..][i - 1] == reqs[i];
      }
    }
  }
}
