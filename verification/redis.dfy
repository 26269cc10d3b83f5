/**
 The key-value store the transcript service keeps its records in: a Redis
 database whose every key holds a hash, i.e. a flat mapping from field name
 to string value. Only the commands the service uses are modelled:
 EXISTS, HGETALL, HSET with a mapping, DEL and KEYS.
 */
module Redis {

  /** One Redis hash: field name to string value. */
  type Hash = map<string, string>

  /** The whole database: key to hash. */
  type Db = map<string, Hash>

  /** HSET semantics on one hash: the given fields are written over the
      hash, every other field keeps its value. */
  function Overlay(h: Hash, fields: Hash): (r: Hash)
    ensures r.Keys == h.Keys + fields.Keys
    ensures forall f :: f in fields ==> r[f] == fields[f]
    ensures forall f :: f in h && f !in fields ==> r[f] == h[f]
  {
    h + fields
  }

  /** The database after `HSET key mapping`: an absent key starts as an empty
      hash; other keys are untouched. */
  function WithFields(db: Db, key: string, fields: Hash): (r: Db)
    ensures r.Keys == db.Keys + {key}
    ensures key in db ==> r[key] == Overlay(db[key], fields)
    ensures key !in db ==> r[key] == fields
    ensures forall k :: k in db && k != key ==> r[k] == db[k]
  {
    db[key := Overlay(if key in db then db[key] else map[], fields)]
  }

  /** No key occurs twice in `s`. */
  predicate Distinct(s: seq<string>) {
    forall i, j :: 0 <= i < j < |s| ==> s[i] != s[j]
  }

  /** `order` lists every key of `keys` exactly once, in some order. */
  predicate Enumerates(order: seq<string>, keys: set<string>) {
    && Distinct(order)
    && (forall i :: 0 <= i < |order| ==> order[i] in keys)
    && (forall k :: k in keys ==> k in order)
  }

  /** An enumeration is as long as the set it enumerates. */
  lemma {:induction false} EnumerationLength(order: seq<string>, keys: set<string>)
    requires Enumerates(order, keys)
    ensures |order| == |keys|
  {
    if order == [] {
      assert keys == {};
    } else {
      var last := order[|order| - 1];
      var init := order[..|order| - 1];
      forall k | k in keys - {last} ensures k in init {
        assert k in order;
        var i :| 0 <= i < |order| && order[i] == k;
        assert i < |order| - 1;
        assert init[i] == k;
      }
      forall i | 0 <= i < |init| ensures init[i] in keys - {last} {
        assert init[i] == order[i];
      }
      assert Enumerates(init, keys - {last});
      EnumerationLength(init, keys - {last});
    }
  }

  /** The connection to the database. The service holds one, process-wide. */
  class Store {
    var db: Db

    /** A connection to a server whose database already holds `initial`. */
    constructor (initial: Db)
      ensures db == initial
    {
      db := initial;
    }

    /** EXISTS key. */
    predicate Exists(key: string): (present: bool)
      reads this
      ensures present <==> key in db
    {
      key in db
    }

    /** HGETALL key: the stored hash, or the empty hash for an absent key. */
    function HGetAll(key: string): (h: Hash)
      reads this
      ensures key in db ==> h == db[key]
      ensures key !in db ==> h == map[]
    {
      if key in db then db[key] else map[]
    }

    /** HSET key mapping: overlays the fields onto the hash at `key`.
        The client library refuses an empty mapping. */
    method HSet(key: string, fields: Hash)
      requires |fields| > 0
      modifies this
      ensures db == WithFields(old(db), key, fields)
    {
      db := WithFields(db, key, fields);
    }

    /** DEL key: removes the key and its whole hash. */
    method Delete(key: string)
      modifies this
      ensures db == old(db) - {key}
    {
      db := db - {key};
    }

    /** KEYS *: every key once, in an order the store chooses. */
    method Keys() returns (ks: seq<string>)
      ensures Enumerates(ks, db.Keys)
    {
      ks := [];
      var rest := db.Keys;
      while rest != {}
        invariant rest <= db.Keys
        invariant Distinct(ks)
        invariant forall i :: 0 <= i < |ks| ==> ks[i] in db && ks[i] !in rest
        invariant forall k :: k in db ==> k in rest || k in ks
        decreases rest
      {
        var k :| k in rest;
        ks := ks + [k];
        rest := rest - {k};
      }
    }
  }
}
